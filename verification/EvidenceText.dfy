/**
 Format-1 evidence text, rendered once in Go (shared/ai/labelexport.go) and once in Python
 (ai-service/probara_ai/contract.py), and the two validators in front of them.
 */
module EvidenceText {
  import opened Common
  import opened Text
  import opened Decimal

  datatype Task = Rca | Dependency

  datatype Value = Number(n: int) | Flag(on: bool)

  type Evidence = map<string, Value>

  const BOUND := 100_000_000

  const RCA_COUNTS := {"checks", "failures"}
  const RCA_NUMBERS := {"dns_failures", "connection_failures", "tls_failures", "protocol_failures", "slow_checks",
                        "baseline_ms", "max_latency_ms", "max_dns_ms", "max_connect_ms", "max_tls_ms", "max_ttfb_ms"}
  const RCA_FLAGS := {"certificate_expired", "certificate_changed", "resource_pressure", "host_metrics_available",
                      "upstream_failed_before", "maintenance_overlap", "conflict", "missing_checks"}
  const PAIR_COUNTS := {"co_fires", "a_leads_seconds"}
  const PAIR_NUMBERS := {"reverse_co_fires"}
  const PAIR_FLAGS := {"shared_service", "shared_group", "naming_signal", "common_upstream"}

  /** The fields a task's head sentence shows, and the labelled ones by type. */
  datatype Schema = Schema(heads: set<string>, numbers: set<string>, flags: set<string>)

  function SchemaOf(task: Task): Schema {
    match task
    case Rca => Schema(RCA_COUNTS, RCA_NUMBERS, RCA_FLAGS)
    case Dependency => Schema(PAIR_COUNTS, PAIR_NUMBERS, PAIR_FLAGS)
  }

  function Fields(s: Schema): set<string> { s.heads + s.numbers + s.flags }

  function Labelled(s: Schema): set<string> { s.numbers + s.flags }

  lemma RcaSchema()
    ensures SchemaOf(Rca).heads !! Labelled(SchemaOf(Rca)) && "a_leads_seconds" !in Labelled(SchemaOf(Rca))
  {
  }

  lemma PairSchema()
    ensures SchemaOf(Dependency).heads !! Labelled(SchemaOf(Dependency)) && "a_leads_seconds" !in Labelled(SchemaOf(Dependency))
  {
  }

  // ---------- The Python field tables, as contract.py writes them ----------

  const PYTHON_RCA_FIELDS := {
    "checks", "failures", "dns_failures", "connection_failures", "tls_failures",
    "protocol_failures", "slow_checks", "baseline_ms", "max_latency_ms", "max_dns_ms",
    "max_connect_ms", "max_tls_ms", "max_ttfb_ms", "certificate_expired", "certificate_changed",
    "resource_pressure", "host_metrics_available", "upstream_failed_before", "maintenance_overlap",
    "conflict", "missing_checks"}
  const PYTHON_PAIR_FIELDS := {"co_fires", "a_leads_seconds", "reverse_co_fires", "shared_service", "shared_group", "naming_signal", "common_upstream"}
  const PYTHON_BOOL_FIELDS := {
    "certificate_expired", "certificate_changed", "resource_pressure", "host_metrics_available", "upstream_failed_before",
    "maintenance_overlap", "conflict", "missing_checks", "shared_service", "shared_group", "naming_signal", "common_upstream"}

  /** The structs and the Python tables list the same fields, and the same of them as flags. */
  lemma FieldTablesAgree()
    ensures Fields(SchemaOf(Rca)) == PYTHON_RCA_FIELDS && Fields(SchemaOf(Dependency)) == PYTHON_PAIR_FIELDS
    ensures forall k :: k in PYTHON_RCA_FIELDS ==> (k in SchemaOf(Rca).flags <==> k in PYTHON_BOOL_FIELDS)
    ensures forall k :: k in PYTHON_PAIR_FIELDS ==> (k in SchemaOf(Dependency).flags <==> k in PYTHON_BOOL_FIELDS)
  {
    RcaFieldsAgree();
    RcaFlagsAgree();
    PairFieldsAgree();
  }

  lemma RcaFieldsAgree()
    ensures RCA_COUNTS + RCA_NUMBERS + RCA_FLAGS == PYTHON_RCA_FIELDS
  {
  }

  lemma RcaFlagsAgree()
    ensures RCA_FLAGS <= PYTHON_BOOL_FIELDS && RCA_COUNTS + RCA_NUMBERS !! PYTHON_BOOL_FIELDS
  {
  }

  lemma PairFieldsAgree()
    ensures PAIR_COUNTS + PAIR_NUMBERS + PAIR_FLAGS == PYTHON_PAIR_FIELDS && PAIR_FLAGS <= PYTHON_BOOL_FIELDS
    ensures PAIR_COUNTS + PAIR_NUMBERS !! PYTHON_BOOL_FIELDS
  {
  }

  // ---------- Validation ----------

  predicate ValueOk(s: Schema, k: string, v: Value) {
    if k in s.flags then v.Flag? else v.Number? && -BOUND <= v.n <= BOUND && (k != "a_leads_seconds" ==> v.n >= 0)
  }

  /** A number is accepted within a hundred million, and below zero only as the lead; a flag only as a flag. */
  lemma ValuesMean(task: Task, k: string, v: Value)
    requires k in Fields(SchemaOf(task))
    ensures ValueOk(SchemaOf(task), k, v) <==>
            if k in PYTHON_BOOL_FIELDS then v.Flag?
            else v.Number? && v.n <= 100_000_000 && (v.n >= 0 || (k == "a_leads_seconds" && v.n >= -100_000_000))
  {
    FieldTablesAgree();
  }

  function Get(e: Evidence, k: string): int { if k in e && e[k].Number? then e[k].n else 0 }

  /** validate_evidence: missing fields are allowed, except the rca counts. */
  predicate PythonAccepts(task: Task, e: Evidence) { PythonAcceptsBy(task, SchemaOf(task), e) }

  predicate PythonAcceptsBy(task: Task, s: Schema, e: Evidence) {
    && e.Keys <= Fields(s)
    && (forall k :: k in e ==> ValueOk(s, k, e[k]))
    && (task == Rca ==> "checks" in e && "failures" in e && Get(e, "failures") <= Get(e, "checks"))
  }

  function Zero(s: Schema, k: string): Value { if k in s.flags then Flag(false) else Number(0) }

  /** Decoding into the struct and marshalling it again fills in every field. */
  function Canonical(s: Schema, e: Evidence): Evidence { map k | k in Fields(s) :: if k in e then e[k] else Zero(s, k) }

  predicate TypesOk(s: Schema, e: Evidence) { forall k :: k in e ==> (if k in s.flags then e[k].Flag? else e[k].Number?) }

  predicate InBounds(k: string, v: Value) {
    v.Number? ==> -BOUND <= v.n <= BOUND && (v.n < 0 ==> k == "a_leads_seconds")
  }

  predicate AllInBounds(e: Evidence) { forall k :: k in e ==> InBounds(k, e[k]) }

  /** Filling in zeros changes neither the bounds nor the types. */
  lemma CanonicalBounds(s: Schema, e: Evidence)
    requires e.Keys <= Fields(s) && TypesOk(s, e)
    ensures AllInBounds(Canonical(s, e)) <==> AllInBounds(e)
    ensures AllInBounds(e) <==> forall k :: k in e ==> ValueOk(s, k, e[k])
    ensures forall k :: k in e ==> k in Canonical(s, e) && Canonical(s, e)[k] == e[k]
  {
    var c := Canonical(s, e);
    assert forall k :: k in e ==> k in c && c[k] == e[k];
    assert forall k :: k in c && k !in e ==> InBounds(k, c[k]);
  }

  // ---------- Sentences ----------

  predicate Shown(e: Evidence, k: string) { k in e && (if e[k].Flag? then e[k].on else e[k].n != 0) }

  function ValueText(v: Value): string { if v.Flag? then "observed" else Signed(v.n) }

  type Label = string -> string

  function Sentence(title: Label, e: Evidence, k: string): string
    requires k in e
  {
    title(k) + ": " + ValueText(e[k]) + "."
  }

  function Piece(title: Label, e: Evidence, k: string): string { if Shown(e, k) then " " + Sentence(title, e, k) else "" }

  /** The labelled part of the text, for the keys in order. */
  function Tail(title: Label, e: Evidence, keys: seq<string>): string {
    if keys == [] then "" else Piece(title, e, keys[0]) + Tail(title, e, keys[1..])
  }

  function Underscored(c: char): char { if c == '_' then ' ' else c }

  function Spaced(k: string): string { seq(|k|, i requires 0 <= i < |k| => Underscored(k[i])) }

  function PairLabel(k: string): string {
    if k == "reverse_co_fires" then "Reverse-direction windows"
    else if k == "shared_service" then "Shared service tag"
    else if k == "shared_group" then "Shared group"
    else if k == "naming_signal" then "Shared naming token"
    else "Known common upstream"
  }

  function LabelOf(task: Task): Label { if task == Rca then Spaced else PairLabel }

  function Direction(lead: int): string {
    if lead > 0 then "A precedes B by " + Signed(lead) + " seconds."
    else if lead < 0 then "B precedes A by " + Signed(-lead) + " seconds."
    else "No clear time direction."
  }

  function Head(task: Task, e: Evidence): string {
    match task
    case Rca => "Checks: " + Signed(Get(e, "checks")) + ". Failed observations: " + Signed(Get(e, "failures")) + "."
    case Dependency => "Co-firing windows: " + Signed(Get(e, "co_fires")) + "." + " " + Direction(Get(e, "a_leads_seconds"))
  }

  function StateText(task: Task, e: Evidence, keys: seq<string>): string { Head(task, e) + Tail(LabelOf(task), e, keys) }

  function Join(text: seq<string>): string {
    if text == [] then "" else if |text| == 1 then text[0] else Join(text[..|text| - 1]) + " " + text[|text| - 1]
  }

  lemma JoinAppend(text: seq<string>, x: string)
    requires text != []
    ensures Join(text + [x]) == Join(text) + " " + x
  {
    assert (text + [x])[..|text|] == text;
  }

  lemma {:induction false} TailAppend(title: Label, e: Evidence, keys: seq<string>, k: string)
    ensures Tail(title, e, keys + [k]) == Tail(title, e, keys) + Piece(title, e, k)
  {
    if keys == [] {
      assert keys + [k] == [k] && [k][1..] == [];
    } else {
      assert (keys + [k])[1..] == keys[1..] + [k] && (keys + [k])[0] == keys[0];
      TailAppend(title, e, keys[1..], k);
    }
  }

  method HeadSentences(task: Task, e: Evidence) returns (text: seq<string>)
    ensures text != [] && Join(text) == Head(task, e)
  {
    if task == Dependency {
      text := ["Co-firing windows: " + Signed(Get(e, "co_fires")) + "."];
      JoinAppend(text, Direction(Get(e, "a_leads_seconds")));
      text := text + [Direction(Get(e, "a_leads_seconds"))];
    } else {
      text := ["Checks: " + Signed(Get(e, "checks")) + ". Failed observations: " + Signed(Get(e, "failures")) + "."];
    }
  }

  lemma AppendPiece(title: Label, e: Evidence, keys: seq<string>, i: nat, text: seq<string>, head: string)
    requires i < |keys| && text != [] && Join(text) == head + Tail(title, e, keys[..i]) && Shown(e, keys[i])
    ensures Join(text + [Sentence(title, e, keys[i])]) == head + Tail(title, e, keys[..i + 1])
  {
    var s := Sentence(title, e, keys[i]);
    JoinAppend(text, s);
    TailWith(title, e, keys, i);
    Glue(head, Tail(title, e, keys[..i]), s, Join(text), Join(text + [s]), Tail(title, e, keys[..i + 1]));
  }

  lemma TailWith(title: Label, e: Evidence, keys: seq<string>, i: nat)
    requires i < |keys| && Shown(e, keys[i])
    ensures Tail(title, e, keys[..i + 1]) == Tail(title, e, keys[..i]) + (" " + Sentence(title, e, keys[i]))
  {
    assert keys[..i + 1] == keys[..i] + [keys[i]];
    TailAppend(title, e, keys[..i], keys[i]);
  }

  lemma Glue(head: string, tail: string, s: string, joined: string, joined': string, tail': string)
    requires joined == head + tail && joined' == joined + " " + s && tail' == tail + (" " + s)
    ensures joined' == head + tail'
  {
  }

  /** The sentence of one field, by a switch on its type. */
  function GoSentence(title: Label, k: string, v: Value): (r: Option<string>) {
    match v
    case Flag(on) => if on then Some(title(k) + ": observed.") else None
    case Number(n) => if n != 0 then Some(title(k) + ": " + Signed(n) + ".") else None
  }

  lemma GoSentenceIs(title: Label, e: Evidence, k: string)
    requires k in e
    ensures GoSentence(title, k, e[k]) == if Shown(e, k) then Some(Sentence(title, e, k)) else None
  {
    assert title(k) + ": observed." == title(k) + ": " + "observed" + ".";
  }

  lemma SkipPiece(title: Label, e: Evidence, keys: seq<string>, i: nat)
    requires i < |keys| && !Shown(e, keys[i])
    ensures Tail(title, e, keys[..i + 1]) == Tail(title, e, keys[..i])
  {
    assert keys[..i + 1] == keys[..i] + [keys[i]];
    TailAppend(title, e, keys[..i], keys[i]);
  }

  /** The Go loop over the sorted fields. */
  method GoSentences(title: Label, fields: Evidence, keys: seq<string>, head: seq<string>) returns (text: seq<string>)
    requires head != [] && forall i :: 0 <= i < |keys| ==> keys[i] in fields
    ensures text != [] && Join(text) == Join(head) + Tail(title, fields, keys)
  {
    text := head;
    var i := 0;
    while i < |keys|
      invariant i <= |keys| && text != [] && Join(text) == Join(head) + Tail(title, fields, keys[..i])
    {
      var sentence := GoSentence(title, keys[i], fields[keys[i]]);
      GoSentenceIs(title, fields, keys[i]);
      if sentence.Some? {
        AppendPiece(title, fields, keys, i, text, Join(head));
        text := text + [sentence.value];
      } else {
        SkipPiece(title, fields, keys, i);
      }
      i := i + 1;
    }
    assert keys[..i] == keys;
  }

  // ---------- The Python head and labels, as contract.py writes them ----------

  function Abs(n: int): int { if n < 0 then -n else n }

  /** Python's str.replace of one character by another. */
  function Replaced(s: string, from: char, to: char): string {
    if s == "" then "" else [if s[0] == from then to else s[0]] + Replaced(s[1..], from, to)
  }

  const PYTHON_PAIR_LABELS := map["reverse_co_fires" := "Reverse-direction windows", "shared_service" := "Shared service tag",
                                  "shared_group" := "Shared group", "naming_signal" := "Shared naming token",
                                  "common_upstream" := "Known common upstream"]

  function PythonTitle(task: Task): Label {
    if task == Rca then (k: string) => Replaced(k, '_', ' ')
    else (k: string) => if k in PYTHON_PAIR_LABELS then PYTHON_PAIR_LABELS[k] else ""
  }

  function PythonDirection(lead: int): string {
    if lead != 0 then (if lead > 0 then "A precedes B" else "B precedes A") + " by " + Signed(Abs(lead)) + " seconds."
    else "No clear time direction."
  }

  method PythonHead(task: Task, e: Evidence) returns (text: seq<string>)
    ensures text != [] && Join(text) == PythonHeadText(task, e)
  {
    if task == Dependency {
      text := ["Co-firing windows: " + Signed(Get(e, "co_fires")) + "."];
      JoinAppend(text, PythonDirection(Get(e, "a_leads_seconds")));
      text := text + [PythonDirection(Get(e, "a_leads_seconds"))];
    } else {
      text := ["Checks: " + Signed(Get(e, "checks")) + ". Failed observations: " + Signed(Get(e, "failures")) + "."];
    }
  }

  function PythonHeadText(task: Task, e: Evidence): string {
    match task
    case Rca => "Checks: " + Signed(Get(e, "checks")) + ". Failed observations: " + Signed(Get(e, "failures")) + "."
    case Dependency => "Co-firing windows: " + Signed(Get(e, "co_fires")) + "." + " " + PythonDirection(Get(e, "a_leads_seconds"))
  }

  function PythonText(task: Task, e: Evidence, keys: seq<string>): string { PythonHeadText(task, e) + Tail(PythonTitle(task), e, keys) }

  /** The Python loop: whatever is present and truthy. */
  method PythonSentences(title: Label, e: Evidence, keys: seq<string>, head: seq<string>) returns (text: seq<string>)
    requires head != []
    ensures text != [] && Join(text) == Join(head) + Tail(title, e, keys)
  {
    text := head;
    var i := 0;
    while i < |keys|
      invariant i <= |keys| && text != [] && Join(text) == Join(head) + Tail(title, e, keys[..i])
    {
      if Shown(e, keys[i]) {
        AppendPiece(title, e, keys, i, text, Join(head));
        text := text + [Sentence(title, e, keys[i])];
      } else {
        SkipPiece(title, e, keys, i);
      }
      i := i + 1;
    }
    assert keys[..i] == keys;
  }

  /** The Go renderer, on the canonical fields: every field of the struct is present. */
  method GoStateText(task: Task, fields: Evidence) returns (r: string)
    requires fields.Keys == Fields(SchemaOf(task))
    ensures forall keys :: Sorts(keys, fields.Keys - SchemaOf(task).heads) ==> r == StateText(task, fields, keys)
  {
    var head := HeadSentences(task, fields);
    var sorted := SortKeys(fields.Keys - SchemaOf(task).heads);
    forall i | 0 <= i < |sorted| ensures sorted[i] in fields { assert sorted[i] in sorted; }
    var text := GoSentences(LabelOf(task), fields, sorted, head);
    forall keys | Sorts(keys, fields.Keys - SchemaOf(task).heads) ensures keys == sorted { SortsIsUnique(keys, sorted); }
    return Join(text);
  }

  /** The Python renderer, on the evidence as it came: absent fields are skipped. */
  method PythonStateText(task: Task, e: Evidence) returns (r: string)
    ensures forall keys :: Sorts(keys, Labelled(SchemaOf(task))) ==> r == PythonText(task, e, keys)
  {
    var head := PythonHead(task, e);
    var sorted := SortKeys(Labelled(SchemaOf(task)));
    var text := PythonSentences(PythonTitle(task), e, sorted, head);
    forall keys | Sorts(keys, Labelled(SchemaOf(task))) ensures keys == sorted { SortsIsUnique(keys, sorted); }
    return Join(text);
  }

  // ---------- The renderers agree ----------

  lemma {:induction false} TailOfCanonical(title: Label, s: Schema, e: Evidence, keys: seq<string>)
    requires e.Keys <= Fields(s) && forall k :: k in keys ==> k in Fields(s)
    ensures Tail(title, Canonical(s, e), keys) == Tail(title, e, keys)
  {
    if keys != [] {
      assert keys[0] in Fields(s);
      TailOfCanonical(title, s, e, keys[1..]);
    }
  }

  /** For every accepted evidence the Go text of its canonical form is the Python text of the evidence itself. */
  lemma RenderersAgree(task: Task, e: Evidence, keys: seq<string>, keys': seq<string>)
    requires PythonAccepts(task, e)
    requires Sorts(keys, Fields(SchemaOf(task)) - SchemaOf(task).heads) && Sorts(keys', Labelled(SchemaOf(task)))
    ensures StateText(task, Canonical(SchemaOf(task), e), keys) == PythonText(task, e, keys')
  {
    RcaSchema();
    PairSchema();
    SortsIsUnique(keys, keys');
    TailOfCanonical(LabelOf(task), SchemaOf(task), e, keys);
    HeadOfCanonical(task, e);
    HeadsAgree(task, e);
    TitlesAgree(task, keys);
    TailOfTitles(LabelOf(task), PythonTitle(task), e, keys);
  }

  /** Python's conditional expression with abs and truthiness is Go's switch. */
  lemma DirectionsAgree(lead: int)
    ensures Direction(lead) == PythonDirection(lead)
  {
    assert "A precedes B" + " by " == "A precedes B by ";
    assert "B precedes A" + " by " == "B precedes A by ";
  }

  lemma HeadsAgree(task: Task, e: Evidence)
    ensures Head(task, e) == PythonHeadText(task, e)
  {
    DirectionsAgree(Get(e, "a_leads_seconds"));
  }

  lemma {:induction false} ReplacedIsSpaced(k: string)
    ensures Replaced(k, '_', ' ') == Spaced(k)
  {
    if k != "" {
      ReplacedIsSpaced(k[1..]);
      assert Spaced(k) == [Underscored(k[0])] + Spaced(k[1..]);
    }
  }

  lemma PairTitleAgrees(k: string)
    requires k in Labelled(SchemaOf(Dependency))
    ensures k in PYTHON_PAIR_LABELS && PYTHON_PAIR_LABELS[k] == PairLabel(k)
  {
  }

  /** The two label tables agree on every labelled field. */
  lemma TitlesAgree(task: Task, keys: seq<string>)
    requires Sorts(keys, Labelled(SchemaOf(task)))
    ensures forall i :: 0 <= i < |keys| ==> LabelOf(task)(keys[i]) == PythonTitle(task)(keys[i])
  {
    forall i | 0 <= i < |keys| ensures LabelOf(task)(keys[i]) == PythonTitle(task)(keys[i]) {
      assert keys[i] in keys;
      match task
      case Rca => ReplacedIsSpaced(keys[i]);
      case Dependency => PairTitleAgrees(keys[i]);
    }
  }

  lemma {:induction false} TailOfTitles(a: Label, b: Label, e: Evidence, keys: seq<string>)
    requires forall i :: 0 <= i < |keys| ==> a(keys[i]) == b(keys[i])
    ensures Tail(a, e, keys) == Tail(b, e, keys)
  {
    if keys != [] { TailOfTitles(a, b, e, keys[1..]); }
  }

  lemma HeadOfCanonical(task: Task, e: Evidence)
    requires PythonAccepts(task, e)
    ensures Head(task, Canonical(SchemaOf(task), e)) == Head(task, e)
  {
    var c := Canonical(SchemaOf(task), e);
    forall k | k in Fields(SchemaOf(task)) ensures Get(c, k) == Get(e, k) {}
    match task
    case Rca => assert "checks" in RCA_COUNTS && "failures" in RCA_COUNTS;
    case Dependency => assert "co_fires" in PAIR_COUNTS && "a_leads_seconds" in PAIR_COUNTS;
  }
}
