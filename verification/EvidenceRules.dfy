/** The evidence summary of one monitor and the guard on causes: shared/ai/evidence.go. */
module EvidenceRules {
  import opened Common

  datatype Status = Success | Failure | Error | OtherStatus

  datatype Category = Dns | Connection | Tls | Protocol | Unknown | OtherCategory

  /** What is kept of the certificate a check met: whether it had expired by then, and its serial. */
  datatype Certificate = Certificate(expired: bool, serial: string)

  /** A check's decoded timings and certificate. */
  datatype Metrics = Metrics(dns: int, connect: int, tls: int, ttfb: int, certificate: Option<Certificate>)

  /** The metrics are absent when they are too large or do not decode. */
  datatype Check = Check(status: Status, category: Category, latency: Option<int>, metrics: Option<Metrics>)

  datatype DomainCounts = DomainCounts(dns: nat, connection: nat, tls: nat, protocol: nat)

  datatype Peaks = Peaks(latency: int, dns: int, connect: int, tls: int, ttfb: int)

  datatype Evidence = Evidence(
    checks: nat, failures: nat, domains: DomainCounts, slow: nat, baseline: int, peaks: Peaks,
    certificateExpired: bool, certificateChanged: bool, resourcePressure: bool, hostMetrics: bool, upstreamFailedBefore: bool,
    maintenanceOverlap: bool, conflict: bool, missingChecks: bool)

  const INSUFFICIENT := "insufficient_evidence"

  predicate Supports(e: Evidence, h: string) {
    if e.missingChecks || e.conflict then h == INSUFFICIENT
    else if h == "dns_failure" then e.domains.dns > 0
    else if h == "connection_failure" then e.domains.connection > 0
    else if h == "tls_problem" then e.domains.tls > 0 || (e.certificateExpired && e.failures > 0)
    else if h == "protocol_error" then e.domains.protocol > 0
    else if h == "latency_degradation" then e.slow > 0 && e.baseline > 0
    else if h == "resource_pressure" then e.resourcePressure && e.hostMetrics && e.failures > 0
    else if h == "upstream_failure" then e.upstreamFailedBefore && e.failures > 0
    else if h == "maintenance_downtime" then e.maintenanceOverlap && e.failures > 0
    else h == INSUFFICIENT
  }

  // ---------- Counting checks ----------

  predicate Failed(c: Check) { c.status == Failure || (c.status == Error && c.category != Unknown) }

  predicate FailedAs(c: Check, domain: Category) { Failed(c) && c.category == domain }

  predicate Slow(c: Check, baseline: int) {
    c.latency.Some? && baseline > 0 && c.latency.value >= 3 * baseline && c.latency.value >= 500
  }

  /** How many checks satisfy the predicate. */
  function Count(checks: seq<Check>, p: Check -> bool): nat {
    if checks == [] then 0
    else Count(checks[..|checks| - 1], p) + (if p(checks[|checks| - 1]) then 1 else 0)
  }

  lemma {:induction false} CountPositive(checks: seq<Check>, p: Check -> bool)
    ensures Count(checks, p) > 0 <==> exists i :: 0 <= i < |checks| && p(checks[i])
  {
    if checks != [] {
      var front := checks[..|checks| - 1];
      CountPositive(front, p);
      if i :| 0 <= i < |front| && p(front[i]) { assert p(checks[i]); }
      if i :| 0 <= i < |checks| && p(checks[i]) && i < |front| { assert p(front[i]); }
    }
  }

  function IsFailed(): Check -> bool { (c: Check) => Failed(c) }
  function IsFailedAs(domain: Category): Check -> bool { (c: Check) => FailedAs(c, domain) }
  function IsSlow(baseline: int): Check -> bool { (c: Check) => Slow(c, baseline) }

  // ---------- The latency baseline ----------

  function Baselines(checks: seq<Check>): seq<int> {
    if checks == [] then []
    else
      var rest, c := Baselines(checks[..|checks| - 1]), checks[|checks| - 1];
      if c.status == Success && c.latency.Some? then rest + [c.latency.value] else rest
  }

  predicate Ascending(xs: seq<int>) { forall i, j :: 0 <= i < j < |xs| ==> xs[i] <= xs[j] }

  function InsertInt(xs: seq<int>, x: int): seq<int> {
    if xs == [] || x <= xs[0] then [x] + xs else [xs[0]] + InsertInt(xs[1..], x)
  }

  predicate AtLeast(xs: seq<int>, low: int) { forall i :: 0 <= i < |xs| ==> low <= xs[i] }

  lemma {:induction false} InsertAtLeast(xs: seq<int>, x: int, low: int)
    requires AtLeast(xs, low) && low <= x
    ensures AtLeast(InsertInt(xs, x), low)
  {
    if xs != [] && x > xs[0] { InsertAtLeast(xs[1..], x, low); }
  }

  lemma {:induction false} InsertAscending(xs: seq<int>, x: int)
    requires Ascending(xs)
    ensures Ascending(InsertInt(xs, x))
  {
    if xs != [] && x > xs[0] {
      InsertAscending(xs[1..], x);
      InsertAtLeast(xs[1..], x, xs[0]);
    }
  }

  lemma {:induction false} InsertKeeps(xs: seq<int>, x: int)
    ensures multiset(InsertInt(xs, x)) == multiset(xs) + multiset{x}
  {
    if xs != [] && x > xs[0] {
      InsertKeeps(xs[1..], x);
      assert xs == [xs[0]] + xs[1..];
    }
  }

  function SortedInts(xs: seq<int>): seq<int> {
    if xs == [] then [] else InsertInt(SortedInts(xs[..|xs| - 1]), xs[|xs| - 1])
  }

  lemma {:induction false} SortedIntsOk(xs: seq<int>)
    ensures Ascending(SortedInts(xs)) && multiset(SortedInts(xs)) == multiset(xs) && |SortedInts(xs)| == |xs|
  {
    if xs != [] {
      var front := xs[..|xs| - 1];
      assert xs == front + [xs[|xs| - 1]];
      SortedIntsOk(front);
      InsertAscending(SortedInts(front), xs[|xs| - 1]);
      InsertKeeps(SortedInts(front), xs[|xs| - 1]);
      assert |multiset(SortedInts(xs))| == |multiset(xs)|;
    }
  }

  /** The upper median of the successful latencies. */
  function Baseline(checks: seq<Check>): int {
    var xs := Baselines(checks);
    SortedIntsOk(xs);
    if xs == [] then 0 else SortedInts(xs)[|xs| / 2]
  }

  // ---------- Peaks and certificates ----------

  function Latencies(): Check -> Option<int> { (c: Check) => c.latency }
  function DnsTimes(): Check -> Option<int> { (c: Check) => if c.metrics.Some? then Some(c.metrics.value.dns) else None }
  function ConnectTimes(): Check -> Option<int> { (c: Check) => if c.metrics.Some? then Some(c.metrics.value.connect) else None }
  function TlsTimes(): Check -> Option<int> { (c: Check) => if c.metrics.Some? then Some(c.metrics.value.tls) else None }
  function FirstByteTimes(): Check -> Option<int> { (c: Check) => if c.metrics.Some? then Some(c.metrics.value.ttfb) else None }

  /** The greatest reading, and zero where none is positive. */
  ghost predicate IsPeak(n: int, checks: seq<Check>, f: Check -> Option<int>) {
    && n >= 0 && (n > 0 ==> exists i :: 0 <= i < |checks| && f(checks[i]) == Some(n))
    && (forall i :: 0 <= i < |checks| && f(checks[i]).Some? ==> f(checks[i]).value <= n)
  }

  ghost predicate AllPeaks(p: Peaks, checks: seq<Check>) {
    && IsPeak(p.latency, checks, Latencies()) && IsPeak(p.dns, checks, DnsTimes()) && IsPeak(p.connect, checks, ConnectTimes())
    && IsPeak(p.tls, checks, TlsTimes()) && IsPeak(p.ttfb, checks, FirstByteTimes())
  }

  function Raised(n: int, x: Option<int>): int { if x.Some? then Max(n, x.value) else n }

  lemma PeakNext(n: int, checks: seq<Check>, c: Check, f: Check -> Option<int>)
    requires IsPeak(n, checks, f)
    ensures IsPeak(Raised(n, f(c)), checks + [c], f)
  {
    var next := checks + [c];
    assert next[|checks|] == c;
    if i :| 0 <= i < |checks| && f(checks[i]) == Some(n) { assert f(next[i]) == Some(n); }
  }

  /** The peaks with one check more. */
  function PeaksWith(p: Peaks, c: Check): Peaks {
    Peaks(Raised(p.latency, Latencies()(c)), Raised(p.dns, DnsTimes()(c)), Raised(p.connect, ConnectTimes()(c)),
          Raised(p.tls, TlsTimes()(c)), Raised(p.ttfb, FirstByteTimes()(c)))
  }

  lemma PeaksNext(p: Peaks, checks: seq<Check>, c: Check)
    requires AllPeaks(p, checks)
    ensures AllPeaks(PeaksWith(p, c), checks + [c])
  {
    PeakNext(p.latency, checks, c, Latencies());
    PeakNext(p.dns, checks, c, DnsTimes());
    PeakNext(p.connect, checks, c, ConnectTimes());
    PeakNext(p.tls, checks, c, TlsTimes());
    PeakNext(p.ttfb, checks, c, FirstByteTimes());
  }

  predicate Expired(c: Check) { c.metrics.Some? && c.metrics.value.certificate.Some? && c.metrics.value.certificate.value.expired }

  predicate SomeExpired(checks: seq<Check>) { exists i :: 0 <= i < |checks| && Expired(checks[i]) }

  /** The serial a check met; empty where there was none. */
  function SerialOf(c: Check): string {
    if c.metrics.Some? && c.metrics.value.certificate.Some? then c.metrics.value.certificate.value.serial else ""
  }

  /** Two checks of the window met different certificates. */
  predicate SerialsDiffer(checks: seq<Check>) {
    exists i, j :: 0 <= i < j < |checks| && SerialOf(checks[i]) != "" && SerialOf(checks[j]) != "" && SerialOf(checks[i]) != SerialOf(checks[j])
  }

  /** The serial carried along is the last one met. */
  predicate LastMet(serial: string, checks: seq<Check>) {
    if serial == "" then forall i :: 0 <= i < |checks| ==> SerialOf(checks[i]) == ""
    else exists i :: 0 <= i < |checks| && SerialOf(checks[i]) == serial
  }

  /** Comparing each serial with the last one met finds any two that differ. */
  lemma SerialNext(serial: string, checks: seq<Check>, c: Check)
    requires LastMet(serial, checks)
    ensures LastMet(if SerialOf(c) == "" then serial else SerialOf(c), checks + [c])
    ensures SerialsDiffer(checks + [c]) <==>
            SerialsDiffer(checks) || (SerialOf(c) != "" && serial != "" && serial != SerialOf(c))
  {
    var next, n := checks + [c], |checks|;
    assert next[n] == c;
    if serial != "" {
      var i :| 0 <= i < n && SerialOf(checks[i]) == serial;
      assert SerialOf(next[i]) == serial;
    }
    if SerialsDiffer(checks) {
      var i, j :| 0 <= i < j < n && SerialOf(checks[i]) != "" && SerialOf(checks[j]) != "" && SerialOf(checks[i]) != SerialOf(checks[j]);
      assert SerialOf(next[i]) != SerialOf(next[j]);
    }
    if SerialsDiffer(next) && !SerialsDiffer(checks) {
      var i, j :| 0 <= i < j < |next| && SerialOf(next[i]) != "" && SerialOf(next[j]) != "" && SerialOf(next[i]) != SerialOf(next[j]);
      assert j == n && next[i] == checks[i];
      OneSerial(serial, checks, i);
    }
  }

  lemma OneSerial(serial: string, checks: seq<Check>, i: nat)
    requires LastMet(serial, checks) && !SerialsDiffer(checks) && i < |checks| && SerialOf(checks[i]) != ""
    ensures SerialOf(checks[i]) == serial
  {
    if serial != "" {
      var k :| 0 <= k < |checks| && SerialOf(checks[k]) == serial;
      var a, b := if i < k then i else k, if i < k then k else i;
      assert a < b ==> SerialOf(checks[a]) == SerialOf(checks[b]);
    }
  }

  // ---------- The summary ----------

  function Domains(e: Evidence): nat {
    (if e.domains.dns > 0 then 1 else 0) + (if e.domains.connection > 0 then 1 else 0)
    + (if e.domains.tls > 0 then 1 else 0) + (if e.domains.protocol > 0 then 1 else 0)
  }

  /** Each counter is the number of checks of its kind. */
  ghost predicate Counted(e: Evidence, checks: seq<Check>, baseline: int) {
    && e.failures == Count(checks, IsFailed())
    && e.domains.dns == Count(checks, IsFailedAs(Dns))
    && e.domains.connection == Count(checks, IsFailedAs(Connection))
    && e.domains.tls == Count(checks, IsFailedAs(Tls))
    && e.domains.protocol == Count(checks, IsFailedAs(Protocol))
    && e.slow == Count(checks, IsSlow(baseline))
  }

  ghost predicate Summarizes(e: Evidence, checks: seq<Check>) {
    && e.checks == |checks| && e.missingChecks == (checks == []) && e.baseline == Baseline(checks)
    && Counted(e, checks, e.baseline) && e.conflict == (Domains(e) > 1)
    && AllPeaks(e.peaks, checks)
    && e.certificateExpired == SomeExpired(checks) && e.certificateChanged == SerialsDiffer(checks)
  }

  const NO_PEAKS := Peaks(0, 0, 0, 0, 0)

  const EMPTY := Evidence(0, 0, DomainCounts(0, 0, 0, 0), 0, 0, NO_PEAKS, false, false, false, false, false, false, false, false)

  function Plus(n: nat, yes: bool): nat { if yes then n + 1 else n }

  predicate DomainsTallied(d: DomainCounts, c: Check, d': DomainCounts) {
    && d'.dns == Plus(d.dns, FailedAs(c, Dns))
    && d'.connection == Plus(d.connection, FailedAs(c, Connection))
    && d'.tls == Plus(d.tls, FailedAs(c, Tls))
    && d'.protocol == Plus(d.protocol, FailedAs(c, Protocol))
  }

  predicate TalliedBy(e: Evidence, c: Check, e': Evidence) {
    && e'.failures == Plus(e.failures, Failed(c))
    && DomainsTallied(e.domains, c, e'.domains)
    && e'.slow == Plus(e.slow, Slow(c, e.baseline))
    && e'.checks == e.checks && e'.missingChecks == e.missingChecks && e'.baseline == e.baseline
    && e'.peaks == PeaksWith(e.peaks, c) && e'.certificateExpired == (e.certificateExpired || Expired(c))
    && e'.certificateChanged == e.certificateChanged
  }

  lemma CountedNext(e: Evidence, checks: seq<Check>, i: nat, e': Evidence)
    requires i < |checks| && Counted(e, checks[..i], e.baseline) && TalliedBy(e, checks[i], e')
    ensures Counted(e', checks[..i + 1], e'.baseline)
  {
    assert checks[..i + 1][..i] == checks[..i];
  }

  method TallyDomain(d: DomainCounts, c: Check) returns (r: DomainCounts)
    requires Failed(c)
    ensures DomainsTallied(d, c, r)
  {
    match c.category
    case Dns => r := d.(dns := d.dns + 1);
    case Connection => r := d.(connection := d.connection + 1);
    case Tls => r := d.(tls := d.tls + 1);
    case Protocol => r := d.(protocol := d.protocol + 1);
    case _ => r := d;
  }

  method RaisePeaks(p: Peaks, c: Check) returns (r: Peaks)
    ensures r == PeaksWith(p, c)
  {
    r := p;
    if c.latency.Some? { r := r.(latency := Max(r.latency, c.latency.value)); }
    if c.metrics.Some? {
      var m := c.metrics.value;
      r := Peaks(r.latency, Max(r.dns, m.dns), Max(r.connect, m.connect), Max(r.tls, m.tls), Max(r.ttfb, m.ttfb));
    }
  }

  method TallyFailure(n: nat, d: DomainCounts, c: Check) returns (failures: nat, domains: DomainCounts)
    ensures failures == Plus(n, Failed(c)) && DomainsTallied(d, c, domains)
  {
    failures, domains := n, d;
    if Failed(c) {
      failures := failures + 1;
      domains := TallyDomain(domains, c);
    }
  }

  /** The body of the counting loop. */
  method Tally(e: Evidence, c: Check) returns (t: Evidence)
    ensures TalliedBy(e, c, t)
  {
    var failures, domains := TallyFailure(e.failures, e.domains, c);
    var peaks := RaisePeaks(e.peaks, c);
    var slow := if Slow(c, e.baseline) then e.slow + 1 else e.slow;
    var expired := e.certificateExpired || Expired(c);
    t := e.(failures := failures, domains := domains, slow := slow, peaks := peaks, certificateExpired := expired);
  }

  /** The certificate comparison of the same loop. */
  method CompareSerial(changed: bool, serial: string, c: Check) returns (now: bool, last: string)
    ensures now == (changed || (SerialOf(c) != "" && serial != "" && serial != SerialOf(c)))
    ensures last == if SerialOf(c) == "" then serial else SerialOf(c)
  {
    now, last := changed, serial;
    if c.metrics.Some? && c.metrics.value.certificate.Some? {
      var met := c.metrics.value.certificate.value.serial;
      if met != "" {
        if serial != "" && serial != met { now := true; }
        last := met;
      }
    }
  }

  /** What the loop has found in the checks so far. */
  ghost predicate Found(e: Evidence, serial: string, checks: seq<Check>) {
    && Counted(e, checks, e.baseline) && AllPeaks(e.peaks, checks)
    && e.certificateExpired == SomeExpired(checks)
    && e.certificateChanged == SerialsDiffer(checks) && LastMet(serial, checks)
  }

  lemma FoundNext(e: Evidence, serial: string, checks: seq<Check>, i: nat, tallied: Evidence, last: string)
    requires i < |checks| && Found(e, serial, checks[..i]) && TalliedBy(e, checks[i], tallied.(certificateChanged := e.certificateChanged))
    requires tallied.certificateChanged ==
             (e.certificateChanged || (SerialOf(checks[i]) != "" && serial != "" && serial != SerialOf(checks[i])))
    requires last == if SerialOf(checks[i]) == "" then serial else SerialOf(checks[i])
    ensures Found(tallied, last, checks[..i + 1])
  {
    CountedNext(e, checks, i, tallied.(certificateChanged := e.certificateChanged));
    assert checks[..i + 1] == checks[..i] + [checks[i]];
    PeaksNext(e.peaks, checks[..i], checks[i]);
    SerialNext(serial, checks[..i], checks[i]);
    ExpiredNext(checks[..i], checks[i]);
  }

  lemma ExpiredNext(checks: seq<Check>, c: Check)
    ensures SomeExpired(checks + [c]) <==> SomeExpired(checks) || Expired(c)
  {
    var next := checks + [c];
    assert next[|checks|] == c;
    if i :| 0 <= i < |checks| && Expired(checks[i]) { assert Expired(next[i]); }
  }

  method SummarizeChecks(checks: seq<Check>) returns (e: Evidence)
    ensures Summarizes(e, checks)
  {
    e := EMPTY.(checks := |checks|, missingChecks := checks == [], baseline := Baseline(checks));
    var serial := "";
    var i := 0;
    while i < |checks|
      invariant i <= |checks| && Found(e, serial, checks[..i])
      invariant e.checks == |checks| && e.missingChecks == (checks == []) && e.baseline == Baseline(checks)
    {
      var tallied := Tally(e, checks[i]);
      var changed, last := CompareSerial(e.certificateChanged, serial, checks[i]);
      FoundNext(e, serial, checks, i, tallied.(certificateChanged := changed), last);
      e, serial := tallied.(certificateChanged := changed), last;
      i := i + 1;
    }
    assert checks[..i] == checks;
    e := e.(conflict := Domains(e) > 1);
  }

  // ---------- What support means ----------

  predicate DomainCause(domain: Category, h: string) {
    (domain == Dns && h == "dns_failure") || (domain == Connection && h == "connection_failure")
    || (domain == Protocol && h == "protocol_error")
  }

  predicate IsDomain(d: Category) { d != Unknown && d != OtherCategory }

  predicate SomeFailedAs(checks: seq<Check>, d: Category) { exists i :: 0 <= i < |checks| && FailedAs(checks[i], d) }

  lemma CountedDomain(checks: seq<Check>, d: Category)
    ensures Count(checks, IsFailedAs(d)) > 0 <==> SomeFailedAs(checks, d)
  {
    CountPositive(checks, IsFailedAs(d));
    if SomeFailedAs(checks, d) {
      var i :| 0 <= i < |checks| && FailedAs(checks[i], d);
      assert IsFailedAs(d)(checks[i]);
    }
  }

  /** A failure domain is supported exactly when some check failed in it and no check failed in another. */
  lemma SupportIsExclusive(e: Evidence, checks: seq<Check>, domain: Category, h: string)
    requires Summarizes(e, checks) && DomainCause(domain, h)
    ensures Supports(e, h) <==>
            SomeFailedAs(checks, domain) && forall d :: IsDomain(d) && d != domain ==> !SomeFailedAs(checks, d)
  {
    CountedDomain(checks, Dns);
    CountedDomain(checks, Connection);
    CountedDomain(checks, Tls);
    CountedDomain(checks, Protocol);
  }

  /** No two failure domains. */
  ghost predicate OneDomain(checks: seq<Check>) {
    forall c, d :: IsDomain(c) && IsDomain(d) && SomeFailedAs(checks, c) && SomeFailedAs(checks, d) ==> c == d
  }

  /** TLS trouble is a failure in the TLS domain, or an expired certificate beside any failure, with no second domain. */
  lemma TlsSupport(e: Evidence, checks: seq<Check>)
    requires Summarizes(e, checks)
    ensures Supports(e, "tls_problem") <==>
            OneDomain(checks) && (SomeFailedAs(checks, Tls) || (SomeExpired(checks) && SomeFailed(checks)))
  {
    CountedDomain(checks, Dns);
    CountedDomain(checks, Connection);
    CountedDomain(checks, Tls);
    CountedDomain(checks, Protocol);
    CountedAll(checks);
    assert e.conflict <==> !OneDomain(checks) by { DomainsAreOne(e, checks); }
  }

  lemma CountedAll(checks: seq<Check>)
    ensures Count(checks, IsFailed()) > 0 <==> SomeFailed(checks)
  {
    CountPositive(checks, IsFailed());
    if SomeFailed(checks) {
      var i :| 0 <= i < |checks| && Failed(checks[i]);
      assert IsFailed()(checks[i]);
    }
  }

  lemma DomainsAreOne(e: Evidence, checks: seq<Check>)
    requires (e.domains.dns > 0 <==> SomeFailedAs(checks, Dns)) && (e.domains.connection > 0 <==> SomeFailedAs(checks, Connection))
    requires (e.domains.tls > 0 <==> SomeFailedAs(checks, Tls)) && (e.domains.protocol > 0 <==> SomeFailedAs(checks, Protocol))
    ensures Domains(e) <= 1 <==> OneDomain(checks)
  {
  }

  predicate SomeFailed(checks: seq<Check>) { exists i :: 0 <= i < |checks| && Failed(checks[i]) }

  predicate SomeSlow(checks: seq<Check>, baseline: int) { exists i :: 0 <= i < |checks| && Slow(checks[i], baseline) }

  lemma CountedFailures(checks: seq<Check>)
    ensures Count(checks, IsFailed()) > 0 ==> SomeFailed(checks)
    ensures forall d :: Count(checks, IsFailedAs(d)) > 0 ==> SomeFailed(checks)
    ensures forall b :: Count(checks, IsSlow(b)) > 0 ==> SomeSlow(checks, b)
  {
    CountPositive(checks, IsFailed());
    if Count(checks, IsFailed()) > 0 {
      var i :| 0 <= i < |checks| && IsFailed()(checks[i]);
      assert Failed(checks[i]);
    }
    forall d | Count(checks, IsFailedAs(d)) > 0 ensures SomeFailed(checks) {
      CountedDomain(checks, d);
      var i :| 0 <= i < |checks| && FailedAs(checks[i], d);
      assert Failed(checks[i]);
    }
    forall b | Count(checks, IsSlow(b)) > 0 ensures SomeSlow(checks, b) {
      CountPositive(checks, IsSlow(b));
      var i :| 0 <= i < |checks| && IsSlow(b)(checks[i]);
      assert Slow(checks[i], b);
    }
  }

  /** Whatever the flags say, a named cause rests on a check that failed, or on a slow one for latency. */
  lemma SupportNeedsObservation(e: Evidence, checks: seq<Check>, h: string)
    requires Counted(e, checks, e.baseline) && Supports(e, h) && h != INSUFFICIENT
    ensures SomeFailed(checks) || (h == "latency_degradation" && SomeSlow(checks, e.baseline))
  {
    CountedFailures(checks);
  }

  /** Abstaining is always supported. */
  lemma AbstentionIsSupported(e: Evidence)
    ensures Supports(e, INSUFFICIENT)
  {
  }

  // ---------- What a summary says, check by check ----------

  lemma {:induction false} CountIsSize(checks: seq<Check>, p: Check -> bool, those: set<int>)
    requires forall i :: i in those <==> 0 <= i < |checks| && p(checks[i])
    ensures Count(checks, p) == |those|
  {
    if checks == [] {
      forall i ensures i !in those {}
      assert those == {};
    } else {
      var n, front := |checks| - 1, checks[..|checks| - 1];
      var rest := those - {n};
      CountIsSize(front, p, rest);
      assert those == rest + (if p(checks[n]) then {n} else {});
    }
  }

  /** A check failed when it says so, or when it ended in an error of a known kind. */
  predicate Broke(c: Check) { c.status == Failure || (c.status == Error && c.category != Unknown) }

  function BrokenAs(checks: seq<Check>, domain: Category): set<int> {
    set i | 0 <= i < |checks| && Broke(checks[i]) && checks[i].category == domain
  }

  /** How many checks failed, in which domain, and how many took three times the baseline and half a second. */
  lemma SummaryMeans(e: Evidence, checks: seq<Check>)
    requires Summarizes(e, checks)
    ensures e.failures == |set i | 0 <= i < |checks| && Broke(checks[i])|
    ensures e.domains.dns == |BrokenAs(checks, Dns)| && e.domains.connection == |BrokenAs(checks, Connection)|
    ensures e.domains.tls == |BrokenAs(checks, Tls)| && e.domains.protocol == |BrokenAs(checks, Protocol)|
    ensures e.slow == |set i | 0 <= i < |checks| && checks[i].latency.Some? && e.baseline > 0
                              && checks[i].latency.value > 499 && checks[i].latency.value >= e.baseline + e.baseline + e.baseline|
    ensures e.conflict <==> exists c, d :: c != d && IsDomain(c) && IsDomain(d) && BrokenAs(checks, c) != {} && BrokenAs(checks, d) != {}
  {
    CountIsSize(checks, IsFailed(), set i | 0 <= i < |checks| && Broke(checks[i]));
    CountIsSize(checks, IsFailedAs(Dns), BrokenAs(checks, Dns));
    CountIsSize(checks, IsFailedAs(Connection), BrokenAs(checks, Connection));
    CountIsSize(checks, IsFailedAs(Tls), BrokenAs(checks, Tls));
    CountIsSize(checks, IsFailedAs(Protocol), BrokenAs(checks, Protocol));
    CountIsSize(checks, IsSlow(e.baseline),
                set i | 0 <= i < |checks| && checks[i].latency.Some? && e.baseline > 0
                        && checks[i].latency.value > 499 && checks[i].latency.value >= e.baseline + e.baseline + e.baseline);
    ConflictMeans(e, checks);
  }

  lemma ConflictMeans(e: Evidence, checks: seq<Check>)
    requires e.domains.dns == |BrokenAs(checks, Dns)| && e.domains.connection == |BrokenAs(checks, Connection)|
    requires e.domains.tls == |BrokenAs(checks, Tls)| && e.domains.protocol == |BrokenAs(checks, Protocol)|
    ensures Domains(e) > 1 <==> exists c, d :: c != d && IsDomain(c) && IsDomain(d) && BrokenAs(checks, c) != {} && BrokenAs(checks, d) != {}
  {
    if Domains(e) > 1 {
      var c := if e.domains.dns > 0 then Dns else if e.domains.connection > 0 then Connection else Tls;
      var d := if e.domains.protocol > 0 then Protocol else if e.domains.tls > 0 then Tls else Connection;
      assert c != d && IsDomain(c) && IsDomain(d) && BrokenAs(checks, c) != {} && BrokenAs(checks, d) != {};
    }
  }

  // ---------- The baseline ----------

  /** How many of the numbers lie below another, and above it. */
  function Below(xs: seq<int>, x: int): nat { |set i | 0 <= i < |xs| && xs[i] < x| }
  function Above(xs: seq<int>, x: int): nat { |set i | 0 <= i < |xs| && xs[i] > x| }

  function UpTo(n: nat): set<int> { if n == 0 then {} else UpTo(n - 1) + {n - 1} }

  lemma {:induction false} UpToHolds(n: nat)
    ensures |UpTo(n)| == n && forall i :: i in UpTo(n) <==> 0 <= i < n
  {
    if n > 0 { UpToHolds(n - 1); }
  }

  lemma MiddleOf(xs: seq<int>, k: nat)
    requires Ascending(xs) && k < |xs|
    ensures Below(xs, xs[k]) <= k && Above(xs, xs[k]) <= |xs| - 1 - k
  {
    var below, above := set i | 0 <= i < |xs| && xs[i] < xs[k], set i | 0 <= i < |xs| && xs[i] > xs[k];
    UpToHolds(k);
    UpToHolds(k + 1);
    UpToHolds(|xs|);
    assert below <= UpTo(k);
    SubsetSize(below, UpTo(k));
    var rest := UpTo(|xs|) - UpTo(k + 1);
    assert above <= rest;
    SubsetSize(above, rest);
    SplitSize(UpTo(|xs|), UpTo(k + 1));
    assert UpTo(|xs|) * UpTo(k + 1) == UpTo(k + 1);
  }

  /** Counting by position and counting by multiplicity agree, so sorting changes neither count. */
  lemma CountsOfSame(xs: seq<int>, ys: seq<int>, x: int)
    requires multiset(xs) == multiset(ys)
    ensures Below(xs, x) == Below(ys, x) && Above(xs, x) == Above(ys, x)
  {
    BelowIs(xs, x);
    BelowIs(ys, x);
    SplitOfSame(xs, ys, x);
  }

  function Smaller(xs: seq<int>, x: int): multiset<int> {
    if xs == [] then multiset{} else Smaller(xs[..|xs| - 1], x) + (if xs[|xs| - 1] < x then multiset{xs[|xs| - 1]} else multiset{})
  }

  function Larger(xs: seq<int>, x: int): multiset<int> {
    if xs == [] then multiset{} else Larger(xs[..|xs| - 1], x) + (if xs[|xs| - 1] > x then multiset{xs[|xs| - 1]} else multiset{})
  }

  lemma {:induction false} BelowIs(xs: seq<int>, x: int)
    ensures Below(xs, x) == |Smaller(xs, x)| && Above(xs, x) == |Larger(xs, x)|
  {
    if xs != [] {
      BelowIs(xs[..|xs| - 1], x);
      CountedLast(xs, x);
    } else {
      NoneCounted(xs, x);
    }
  }

  lemma NoneCounted(xs: seq<int>, x: int)
    requires |xs| == 0
    ensures Below(xs, x) == 0 && Above(xs, x) == 0
  {
  }

  lemma CountedLast(xs: seq<int>, x: int)
    requires xs != []
    ensures var n, front := |xs| - 1, xs[..|xs| - 1];
            && Below(xs, x) == Below(front, x) + (if xs[n] < x then 1 else 0)
            && Above(xs, x) == Above(front, x) + (if xs[n] > x then 1 else 0)
  {
    var n, front := |xs| - 1, xs[..|xs| - 1];
    var below, above := set i | 0 <= i < |front| && front[i] < x, set i | 0 <= i < |front| && front[i] > x;
    assert (set i | 0 <= i < |xs| && xs[i] < x) == below + (if xs[n] < x then {n} else {});
    assert (set i | 0 <= i < |xs| && xs[i] > x) == above + (if xs[n] > x then {n} else {});
  }

  lemma {:induction false} SmallerHolds(xs: seq<int>, x: int, y: int)
    ensures Smaller(xs, x)[y] == (if y < x then multiset(xs)[y] else 0) && Larger(xs, x)[y] == (if y > x then multiset(xs)[y] else 0)
  {
    if xs != [] {
      assert xs == xs[..|xs| - 1] + [xs[|xs| - 1]];
      SmallerHolds(xs[..|xs| - 1], x, y);
    }
  }

  lemma SplitOfSame(xs: seq<int>, ys: seq<int>, x: int)
    requires multiset(xs) == multiset(ys)
    ensures Smaller(xs, x) == Smaller(ys, x) && Larger(xs, x) == Larger(ys, x)
  {
    forall y ensures Smaller(xs, x)[y] == Smaller(ys, x)[y] && Larger(xs, x)[y] == Larger(ys, x)[y] {
      SmallerHolds(xs, x, y);
      SmallerHolds(ys, x, y);
    }
  }

  lemma {:induction false} BaselinesMean(checks: seq<Check>, x: int)
    ensures x in Baselines(checks) <==> exists i :: 0 <= i < |checks| && checks[i].status == Success && checks[i].latency == Some(x)
  {
    if checks != [] {
      var front := checks[..|checks| - 1];
      BaselinesMean(front, x);
      if i :| 0 <= i < |front| && front[i].status == Success && front[i].latency == Some(x) { assert checks[i] == front[i]; }
      if i :| 0 <= i < |checks| && checks[i].status == Success && checks[i].latency == Some(x) && i < |front| { assert front[i] == checks[i]; }
    }
  }

  /** The baseline is the latency of a successful check in the middle: at most half of them took less, and fewer than half took more. */
  lemma BaselineMeans(checks: seq<Check>)
    ensures var xs := Baselines(checks);
            if forall i :: 0 <= i < |checks| ==> checks[i].status != Success || checks[i].latency.None? then Baseline(checks) == 0
            else Baseline(checks) in xs && 2 * Below(xs, Baseline(checks)) <= |xs| && 2 * Above(xs, Baseline(checks)) < |xs|
  {
    var xs := Baselines(checks);
    if xs == [] {
      forall i | 0 <= i < |checks| ensures checks[i].status != Success || checks[i].latency.None? {
        if checks[i].latency.Some? { BaselinesMean(checks, checks[i].latency.value); }
      }
    } else {
      BaselinesMean(checks, xs[0]);
      SortedIntsOk(xs);
      var sorted := SortedInts(xs);
      MiddleOf(sorted, |xs| / 2);
      CountsOfSame(xs, sorted, Baseline(checks));
      assert sorted[|xs| / 2] in multiset(sorted);
    }
  }

  /** When the other causes are borne out: no missing or conflicting evidence, and the measurement that is the cause beside a failure. */
  lemma OtherSupport(e: Evidence)
    ensures Supports(e, "latency_degradation") <==> !e.missingChecks && !e.conflict && e.slow > 0 && e.baseline > 0
    ensures Supports(e, "resource_pressure") <==> !e.missingChecks && !e.conflict && e.failures > 0 && e.resourcePressure && e.hostMetrics
    ensures Supports(e, "upstream_failure") <==> !e.missingChecks && !e.conflict && e.failures > 0 && e.upstreamFailedBefore
    ensures Supports(e, "maintenance_downtime") <==> !e.missingChecks && !e.conflict && e.failures > 0 && e.maintenanceOverlap
    ensures Supports(e, "insufficient_evidence")
  {
  }
}
