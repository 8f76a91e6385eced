/**
 Every writer of monitor state, the rollup consumer and the retention job as one transition system.

 A writing transaction begins (fixing its NOW()), later acquires the row locks it needs, runs its
 statements against the tables as they then are, and later still commits or rolls back; any number of
 transactions interleave, and results may be redelivered and reordered at will. The consumer follows
 scheduler/internal/scheduler/rollups_dirty.go, the pruner scheduler/internal/scheduler/scheduler.go
 and scheduler/internal/scheduler/retention.go.
 */
module Protocol {
  import opened Common
  import opened MonitorState
  import opened Recording

  type TxId = int

  // ---------- Writers ----------

  datatype Op =
    | RecordResult(result: CheckResult)
    | RecordAtLocation(result: CheckResult, location: LocationId)
    | MarkStale(monitor: MonitorId)
    | Reaggregate(monitor: MonitorId)
    | Toggle(monitor: MonitorId, enabled: bool)
    | SetLocations(monitor: MonitorId, locations: set<LocationId>)
    | DeleteLocation(location: LocationId)

  predicate CarriesResult(op: Op) { op.RecordResult? || op.RecordAtLocation? }

  /** The monitor rows a writer locks FOR UPDATE. */
  function Targets(op: Op, monitors: map<MonitorId, Monitor>): set<MonitorId> {
    match op
    case RecordResult(r) => {r.monitor}
    case RecordAtLocation(r, _) => {r.monitor}
    case MarkStale(m) => {m}
    case Reaggregate(m) => {m}
    case Toggle(m, _) => {m}
    case SetLocations(m, _) => {m}
    case DeleteLocation(l) => set m | m in monitors && l in monitors[m].locations
  }

  function PlanOf(op: Op, m: Monitor, inserted: bool, now: Time, live: set<LocationId>): Plan {
    match op
    case RecordResult(r) => PlanRecord(m, r, inserted, now)
    case RecordAtLocation(r, l) => PlanAtLocation(m, r, l, inserted, now, live)
    case MarkStale(_) => PlanMarkStale(m, now)
    case Reaggregate(_) => PlanReaggregate(m, now, live)
    case Toggle(_, enabled) => PlanToggle(m, enabled, now)
    case SetLocations(_, ls) => PlanSetLocations(m, ls, now)
    case DeleteLocation(l) => PlanLoseLocation(m, l, now)
  }

  datatype Mark = Mark(bucket: Bucket, at: Time)

  /** A transaction's uncommitted writes; it holds the row lock of every monitor in `plans`. */
  datatype Staged = Staged(before: map<MonitorId, Monitor>, plans: map<MonitorId, Plan>, live: set<LocationId>,
                           row: Option<CheckResult>, mark: Option<Mark>)

  datatype Tx = Tx(now: Time, op: Op, staged: Option<Staged>)

  /** A consumer run: the marks it loaded and the buckets it has rebuilt so far, not yet committed. */
  datatype Consumer = Consumer(batch: map<Bucket, Time>, rebuilt: map<Bucket, set<Key>>)

  datatype Database = Database(
    clock: Time,
    monitors: map<MonitorId, Monitor>,
    results: map<Key, CheckResult>,
    dirty: map<Bucket, Time>,
    rollups: map<Bucket, set<Key>>,
    live: set<LocationId>,
    txs: map<TxId, Tx>,
    consumer: Option<Consumer>,
    cutoff: Option<Time>,
    floor: Time,
    // History, never read by any step: what moved each monitor, which rows were committed with a
    // mark, which buckets lost a row to retention, and which keys were pruned.
    history: map<MonitorId, seq<Event>>,
    marked: set<(Key, Bucket)>,
    lost: set<Bucket>,
    pruned: set<Key>)

  function Initial(clock: Time): Database {
    Database(clock, map[], map[], map[], map[], {}, map[], None, None, clock - 400 * DAY, map[], {}, {}, {})
  }

  // ---------- Steps ----------

  datatype Step =
    | Begin(tx: TxId, op: Op)
    | Acquire(tx: TxId, at: Time)
    | Commit(tx: TxId)
    | Abort(tx: TxId)
    | Create(monitor: MonitorId, now: Time, threshold: int, quorum: int, intervalSeconds: int)
    | Configure(monitor: MonitorId, threshold: int, quorum: int, intervalSeconds: int)
    | SetLive(live: set<LocationId>)
    | InsertPlatform(result: CheckResult)
    | Load(buckets: set<Bucket>)
    | Rebuild(bucket: Bucket)
    | Publish
    | GiveUp
    | ReadCutoff
    | Prune(keys: set<Key>)
    | PruneRollups
    | Tick(to: Time)

  predicate Holds(s: Database, t: TxId) { t in s.txs && s.txs[t].staged.Some? }

  ghost predicate Locked(s: Database, m: MonitorId) {
    exists t :: Holds(s, t) && m in s.txs[t].staged.value.plans
  }

  ghost predicate StagesKey(s: Database, k: Key) {
    exists t :: Holds(s, t) && s.txs[t].staged.value.row.Some? && s.txs[t].staged.value.row.value.key == k
  }

  ghost predicate StagesMark(s: Database, b: Bucket) {
    exists t :: Holds(s, t) && s.txs[t].staged.value.mark.Some? && s.txs[t].staged.value.mark.value.bucket == b
  }

  /** The environment hypothesis of the retention horizons: no recording transaction outlives one hour. */
  ghost predicate MayReach(s: Database, to: Time) {
    forall t :: t in s.txs ==> to <= s.txs[t].now + HOUR
  }

  function Stage(s: Database, tx: Tx, at: Time): Staged
    requires Targets(tx.op, s.monitors) <= s.monitors.Keys
  {
    var targets := Targets(tx.op, s.monitors);
    var inserted := CarriesResult(tx.op) && tx.op.result.key !in s.results;
    Staged(
      map m | m in targets :: s.monitors[m],
      map m | m in targets :: PlanOf(tx.op, s.monitors[m], inserted, tx.now, s.live),
      s.live,
      if inserted then Some(tx.op.result) else None,
      if inserted && Marks(tx.op.result, tx.now)
      then Some(Mark(BucketOf(tx.op.result), MarkTime(s.dirty, BucketOf(tx.op.result), tx.now, at)))
      else None)
  }

  ghost predicate Enabled(s: Database, step: Step) {
    match step
    case Begin(t, _) => t !in s.txs
    case Acquire(t, at) =>
      && t in s.txs && s.txs[t].staged.None?
      && Targets(s.txs[t].op, s.monitors) <= s.monitors.Keys
      && (forall m :: m in Targets(s.txs[t].op, s.monitors) ==> !Locked(s, m))
      // A concurrent uncommitted insert of the same key makes ON CONFLICT wait.
      && (CarriesResult(s.txs[t].op) ==> !StagesKey(s, s.txs[t].op.result.key))
      // No two wall-clock readings coincide.
      && s.clock < at && MayReach(s, at)
    case Commit(t) => Holds(s, t)
    case Abort(t) => t in s.txs
    case Create(m, now, _, _, _) => m !in s.monitors && now <= s.clock
    case Configure(m, _, _, _) => m in s.monitors && !Locked(s, m)
    case SetLive(_) => true
    case InsertPlatform(r) => r.key.source == PlatformSource && !StagesKey(s, r.key)
    case Load(bs) => s.consumer.None? && bs <= s.dirty.Keys
    case Rebuild(b) => s.consumer.Some? && b in s.consumer.value.batch
    // The conditional delete waits for producers that have touched one of its marks.
    case Publish =>
      && s.consumer.Some? && s.consumer.value.rebuilt.Keys == s.consumer.value.batch.Keys
      && forall b :: b in s.consumer.value.batch ==> !StagesMark(s, b)
    case GiveUp => s.consumer.Some?
    case ReadCutoff => true
    case Prune(ks) =>
      && s.cutoff.Some? && ks <= s.results.Keys
      && forall k :: k in ks ==> s.results[k].startedAt < s.cutoff.value && BucketOf(s.results[k]) !in s.dirty
    case PruneRollups => true
    case Tick(to) => s.clock <= to && MayReach(s, to)
  }

  /** The monitor-source rows of a bucket that are still in the raw table. */
  function RowsOf(results: map<Key, CheckResult>, b: Bucket): set<Key> {
    set k | k in results && k.source == MonitorSource && BucketOf(results[k]) == b
  }

  function Settle(s: Database, g: Staged): Database {
    s.(monitors := map m | m in s.monitors :: if m in g.plans then g.plans[m].after else s.monitors[m],
       history := map m | m in s.history ::
                    if m in g.plans && g.plans[m].event.Some? then s.history[m] + [g.plans[m].event.value]
                    else s.history[m],
       results := if g.row.Some? then s.results[g.row.value.key := g.row.value] else s.results,
       dirty := if g.mark.Some? then s.dirty[g.mark.value.bucket := g.mark.value.at] else s.dirty,
       marked := if g.mark.Some? && g.row.Some? then s.marked + {(g.row.value.key, g.mark.value.bucket)} else s.marked)
  }

  /** The hourly table after a consumer transaction: rebuilt buckets replaced, empty ones deleted. */
  function Replaced(rollups: map<Bucket, set<Key>>, rebuilt: map<Bucket, set<Key>>): map<Bucket, set<Key>> {
    map b | b in rollups.Keys + rebuilt.Keys && (b in rebuilt ==> rebuilt[b] != {}) ::
      if b in rebuilt then rebuilt[b] else rollups[b]
  }

  /** The ledger after the conditional consume: only marks not refreshed since the load are deleted. */
  function Consumed(dirty: map<Bucket, Time>, batch: map<Bucket, Time>): map<Bucket, Time> {
    map b | b in dirty && !(b in batch && dirty[b] <= batch[b]) :: dirty[b]
  }

  function Post(s: Database, step: Step): Database
    requires Enabled(s, step)
  {
    match step
    case Begin(t, op) => s.(txs := s.txs[t := Tx(s.clock, op, None)])
    case Acquire(t, at) => s.(clock := at, txs := s.txs[t := s.txs[t].(staged := Some(Stage(s, s.txs[t], at)))])
    case Commit(t) => Settle(s, s.txs[t].staged.value).(txs := s.txs - {t})
    case Abort(t) => s.(txs := s.txs - {t})
    case Create(m, now, threshold, quorum, interval) =>
      s.(monitors := s.monitors[m := Monitor(Unknown, 0, threshold, quorum, interval, true, None, None, now, {}, map[],
                                             RecordInterval([], now, Unknown, ByCreation))],
         history := s.history[m := []])
    case Configure(m, threshold, quorum, interval) =>
      s.(monitors := s.monitors[m := s.monitors[m].(threshold := threshold, quorum := quorum, intervalSeconds := interval)])
    case SetLive(live) => s.(live := live)
    case InsertPlatform(r) => s.(results := WithRow(s.results, r))
    case Load(bs) => s.(consumer := Some(Consumer(map b | b in bs :: s.dirty[b], map[])))
    case Rebuild(b) =>
      var c := s.consumer.value;
      s.(consumer := Some(c.(rebuilt := c.rebuilt[b := RowsOf(s.results, b)])))
    case Publish =>
      var c := s.consumer.value;
      s.(consumer := None, rollups := Replaced(s.rollups, c.rebuilt), dirty := Consumed(s.dirty, c.batch))
    case GiveUp => s.(consumer := None)
    case ReadCutoff => s.(cutoff := Some(PruneCutoff(s.clock)))
    case Prune(ks) =>
      s.(results := s.results - ks,
         lost := s.lost + (set k | k in ks && k.source == MonitorSource :: BucketOf(s.results[k])),
         pruned := s.pruned + ks)
    case PruneRollups =>
      var floor := Max(s.floor, s.clock - 400 * DAY);
      s.(floor := floor, rollups := map b | b in s.rollups && b.hour >= floor :: s.rollups[b])
    case Tick(to) => s.(clock := to)
  }

  // ---------- Locks: a transaction's reads are still current when it commits ----------

  ghost predicate StagedOk(s: Database, t: TxId)
    requires Holds(s, t)
  {
    var tx := s.txs[t];
    var g := tx.staged.value;
    && g.before.Keys == g.plans.Keys <= s.monitors.Keys
    && (forall m :: m in g.plans ==>
          s.monitors[m] == g.before[m] && g.plans[m] == PlanOf(tx.op, g.before[m], g.row.Some?, tx.now, g.live))
    && (CarriesResult(tx.op) ==> g.plans.Keys == {tx.op.result.monitor})
    && (g.row.Some? ==> CarriesResult(tx.op) && g.row.value == tx.op.result && g.row.value.key !in s.results)
    && (g.mark.Some? ==> g.row.Some? && Marks(g.row.value, tx.now) && g.mark.value.bucket == BucketOf(g.row.value))
    && (g.row.Some? && Marks(g.row.value, tx.now) ==> g.mark.Some?)
  }

  ghost predicate Apart(s: Database, t: TxId, u: TxId)
    requires Holds(s, t) && Holds(s, u)
  {
    var g, h := s.txs[t].staged.value, s.txs[u].staged.value;
    && g.plans.Keys !! h.plans.Keys
    && (g.row.Some? && h.row.Some? ==> g.row.value.key != h.row.value.key)
  }

  ghost predicate LocksOk(s: Database) {
    && (forall t :: t in s.txs ==> s.txs[t].now <= s.clock <= s.txs[t].now + HOUR)
    && (forall t :: Holds(s, t) ==> StagedOk(s, t))
    && (forall t, u :: Holds(s, t) && Holds(s, u) && t != u ==> Apart(s, t, u))
    && s.history.Keys == s.monitors.Keys
  }

  lemma AcquireKeepsLocks(s: Database, t: TxId, at: Time)
    requires LocksOk(s) && Enabled(s, Acquire(t, at))
    ensures LocksOk(Post(s, Acquire(t, at)))
  {
    var s' := Post(s, Acquire(t, at));
    var g := s'.txs[t].staged.value;
    forall u | Holds(s', u) ensures StagedOk(s', u) {
      if u != t { assert Holds(s, u) && StagedOk(s, u); }
    }
    forall u | Holds(s', u) && u != t ensures Apart(s', t, u) && Apart(s', u, t) {
      assert Holds(s, u);
      var h := s.txs[u].staged.value;
      forall m | m in g.plans ensures m !in h.plans { assert !Locked(s, m); }
      if g.row.Some? && h.row.Some? { assert !StagesKey(s, g.row.value.key); }
    }
    forall u, v | Holds(s', u) && Holds(s', v) && u != v ensures Apart(s', u, v) {
      if u != t && v != t { assert Holds(s, u) && Holds(s, v) && Apart(s, u, v); }
    }
  }

  lemma CommitKeepsLocks(s: Database, t: TxId)
    requires LocksOk(s) && Enabled(s, Commit(t))
    ensures LocksOk(Post(s, Commit(t)))
  {
    var s' := Post(s, Commit(t));
    forall u | Holds(s', u) ensures StagedOk(s', u) {
      assert Holds(s, u) && StagedOk(s, u) && Apart(s, t, u) && StagedOk(s, t);
    }
    forall u, v | Holds(s', u) && Holds(s', v) && u != v ensures Apart(s', u, v) {
      assert Holds(s, u) && Holds(s, v) && Apart(s, u, v);
    }
  }

  /** Steps that neither touch a locked monitor nor store a staged key keep every lock sound. */
  lemma LocksFrame(s: Database, s': Database)
    requires LocksOk(s)
    requires forall t :: t in s'.txs ==> t in s.txs && s'.txs[t] == s.txs[t]
    requires s.clock <= s'.clock && MayReach(s', s'.clock)
    requires s.monitors.Keys <= s'.monitors.Keys
    requires forall m :: m in s.monitors && Locked(s, m) ==> s'.monitors[m] == s.monitors[m]
    requires forall k :: k in s'.results ==> k in s.results || !StagesKey(s, k)
    requires s'.history.Keys == s'.monitors.Keys
    ensures LocksOk(s')
  {
    forall u | Holds(s', u) ensures StagedOk(s', u) {
      assert Holds(s, u) && StagedOk(s, u);
      var g := s.txs[u].staged.value;
      forall m | m in g.plans ensures s'.monitors[m] == g.before[m] { assert Locked(s, m); }
      if g.row.Some? { assert StagesKey(s, g.row.value.key); }
    }
    forall u, v | Holds(s', u) && Holds(s', v) && u != v ensures Apart(s', u, v) {
      assert Holds(s, u) && Holds(s, v) && Apart(s, u, v);
    }
  }

  lemma BeginKeepsLocks(s: Database, t: TxId, op: Op)
    requires LocksOk(s) && Enabled(s, Begin(t, op))
    ensures LocksOk(Post(s, Begin(t, op)))
  {
    var s' := Post(s, Begin(t, op));
    forall u | Holds(s', u) ensures StagedOk(s', u) { assert Holds(s, u) && StagedOk(s, u); }
    forall u, v | Holds(s', u) && Holds(s', v) && u != v ensures Apart(s', u, v) {
      assert Holds(s, u) && Holds(s, v) && Apart(s, u, v);
    }
  }

  lemma KeepsLocks(s: Database, step: Step)
    requires LocksOk(s) && Enabled(s, step)
    ensures LocksOk(Post(s, step))
  {
    match step {
      case Acquire(t, at) => AcquireKeepsLocks(s, t, at);
      case Commit(t) => CommitKeepsLocks(s, t);
      case Begin(t, op) => BeginKeepsLocks(s, t, op);
      case _ => LocksFrame(s, Post(s, step));
    }
  }
}
