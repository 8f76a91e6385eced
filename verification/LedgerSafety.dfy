/**
 The dirty-bucket ledger over whole runs of the recording protocol: no committed result is ever lost
 from the hourly rollups, and no rebuild ever works from a bucket that retention has already cut.
 */
module LedgerSafety {
  import opened Common
  import opened MonitorState
  import opened Recording
  import opened Protocol
  import opened RecordingSafety

  // ---------- Hour arithmetic ----------

  lemma HorizonMonotone(a: Time, b: Time)
    requires a <= b
    ensures MarkHorizon(a) <= MarkHorizon(b)
  {
  }

  /** A transaction at most an hour old marks nothing more than an hour below today's horizon. */
  lemma HorizonGap(now: Time, clock: Time)
    requires now <= clock <= now + HOUR
    ensures MarkHorizon(clock) - HOUR <= MarkHorizon(now)
  {
  }

  lemma PrunedHour(t: Time, cutoff: Time)
    requires t < cutoff && cutoff % HOUR == 0
    ensures HourOf(t) + HOUR <= cutoff
  {
  }

  lemma CutoffAligned(now: Time)
    ensures PruneCutoff(now) % HOUR == 0
  {
  }

  /**
   Why one hour: some instant can still be marked by a transaction begun at `now` and already be pruned
   at `clock` exactly when the horizon has moved two whole hours in between.
   */
  lemma MarkableAndPrunable(now: Time, clock: Time)
    ensures (exists t: Time :: HourOf(t) >= MarkHorizon(now) && t < PruneCutoff(clock))
            <==> MarkHorizon(clock) >= MarkHorizon(now) + 2 * HOUR
  {
    CutoffAligned(clock);
    if t: Time :| HourOf(t) >= MarkHorizon(now) && t < PruneCutoff(clock) { PrunedHour(t, PruneCutoff(clock)); }
    if MarkHorizon(clock) >= MarkHorizon(now) + 2 * HOUR {
      assert HourOf(MarkHorizon(now)) >= MarkHorizon(now) && MarkHorizon(now) < PruneCutoff(clock);
    }
  }

  // ---------- The invariant ----------

  /** The row is counted in its hour's rollup, or the rollup itself has expired. */
  predicate Counted(s: Database, k: Key, b: Bucket) {
    (b in s.rollups && k in s.rollups[b]) || b.hour < s.floor
  }

  ghost predicate MarksOk(s: Database) {
    forall k, b :: (k, b) in s.marked ==> Counted(s, k, b) || b in s.dirty
  }

  /** In a bucket retention has not touched, every committed marked row and every counted row is still there. */
  ghost predicate RawOk(s: Database) {
    && (forall k, b :: (k, b) in s.marked && b !in s.lost ==> k in RowsOf(s.results, b))
    && (forall b :: b in s.rollups && b !in s.lost ==> s.rollups[b] <= RowsOf(s.results, b))
  }

  ghost predicate LostOk(s: Database) {
    forall b :: b in s.lost ==>
      b !in s.dirty && b.hour + 2 * HOUR <= MarkHorizon(s.clock)
  }

  /** An uncommitted mark is newer than the committed one, and never on a bucket retention has cut. */
  ghost predicate MarkOk(s: Database, m: Mark) {
    m.at <= s.clock && m.bucket !in s.lost && (m.bucket in s.dirty ==> s.dirty[m.bucket] < m.at)
  }

  ghost predicate StagedMarksOk(s: Database) {
    forall t :: Holds(s, t) && s.txs[t].staged.value.mark.Some? ==> MarkOk(s, s.txs[t].staged.value.mark.value)
  }

  ghost predicate ClockOk(s: Database) {
    && (forall b :: b in s.dirty ==> s.dirty[b] <= s.clock)
    && (s.cutoff.Some? ==> s.cutoff.value <= PruneCutoff(s.clock) && s.cutoff.value % HOUR == 0)
  }

  /** What the consumer knows about a bucket of its batch. */
  ghost predicate BatchOk(s: Database, c: Consumer, b: Bucket)
    requires b in c.batch
  {
    && b in s.dirty && c.batch[b] <= s.dirty[b]
    && (b in c.rebuilt ==>
          && c.rebuilt[b] <= RowsOf(s.results, b)
          && (b in s.rollups ==> s.rollups[b] <= c.rebuilt[b])
          && (s.dirty[b] == c.batch[b] ==> forall k :: (k, b) in s.marked ==> k in c.rebuilt[b]))
  }

  ghost predicate ConsumerOk(s: Database) {
    s.consumer.Some? ==>
      var c := s.consumer.value;
      c.rebuilt.Keys <= c.batch.Keys && forall b :: b in c.batch ==> BatchOk(s, c, b)
  }

  /** A monitor-source row that was not marked lies below the mark horizon, and rollups expire only after 400 days. */
  ghost predicate RecentOk(s: Database) {
    && (forall k :: k in s.results && k.source == MonitorSource ==>
          (k, BucketOf(s.results[k])) in s.marked || HourOf(s.results[k].startedAt) < MarkHorizon(s.clock))
    && s.floor <= s.clock - 400 * DAY
  }

  ghost predicate LedgerOk(s: Database) {
    MarksOk(s) && RawOk(s) && LostOk(s) && StagedMarksOk(s) && ClockOk(s) && ConsumerOk(s)
  }

  // ---------- Preservation, step by step ----------

  lemma AcquireKeepsLedger(s: Database, t: TxId, at: Time)
    requires LocksOk(s) && LedgerOk(s) && Enabled(s, Acquire(t, at))
    ensures LedgerOk(Post(s, Acquire(t, at)))
  {
    var s' := Post(s, Acquire(t, at));
    HorizonMonotone(s.clock, at);
    HorizonGap(s.txs[t].now, s.clock);
    forall u | Holds(s', u) && s'.txs[u].staged.value.mark.Some? ensures MarkOk(s', s'.txs[u].staged.value.mark.value) {
      if u != t { assert Holds(s, u) && MarkOk(s, s.txs[u].staged.value.mark.value); }
    }
  }

  lemma CommitKeepsMarks(s: Database, t: TxId)
    requires LocksOk(s) && LedgerOk(s) && Enabled(s, Commit(t))
    ensures MarksOk(Post(s, Commit(t))) && ClockOk(Post(s, Commit(t))) && StagedMarksOk(Post(s, Commit(t)))
  {
    var s' := Post(s, Commit(t));
    var g := s.txs[t].staged.value;
    assert StagedOk(s, t);
    forall u | Holds(s', u) && s'.txs[u].staged.value.mark.Some? ensures MarkOk(s', s'.txs[u].staged.value.mark.value) {
      // Two staged marks never share a bucket: their transactions lock different monitors.
      assert Holds(s, u) && Apart(s, t, u) && StagedOk(s, u) && MarkOk(s, s.txs[u].staged.value.mark.value);
    }
    forall k, b | (k, b) in s'.marked ensures Counted(s', k, b) || b in s'.dirty {
      if (k, b) in s.marked { assert Counted(s, k, b) || b in s.dirty; }
    }
  }

  lemma CommitKeepsRaw(s: Database, t: TxId)
    requires LocksOk(s) && LedgerOk(s) && Enabled(s, Commit(t))
    ensures RawOk(Post(s, Commit(t))) && LostOk(Post(s, Commit(t)))
  {
    var s' := Post(s, Commit(t));
    assert StagedOk(s, t);
    forall b ensures RowsOf(s.results, b) <= RowsOf(s'.results, b) {}
  }

  lemma CommitKeepsConsumer(s: Database, t: TxId)
    requires LocksOk(s) && LedgerOk(s) && Enabled(s, Commit(t))
    ensures ConsumerOk(Post(s, Commit(t)))
  {
    var s' := Post(s, Commit(t));
    assert StagedOk(s, t);
    if s.consumer.Some? {
      var c := s.consumer.value;
      forall b | b in c.batch ensures BatchOk(s', c, b) {
        assert BatchOk(s, c, b);
        assert RowsOf(s.results, b) <= RowsOf(s'.results, b);
      }
    }
  }

  lemma RebuildKeepsLedger(s: Database, b: Bucket)
    requires LedgerOk(s) && Enabled(s, Rebuild(b))
    ensures LedgerOk(Post(s, Rebuild(b)))
  {
    var s' := Post(s, Rebuild(b));
    LedgerFrame(s, s');
    var c, c' := s.consumer.value, s'.consumer.value;
    forall x | x in c'.batch ensures BatchOk(s', c', x) {
      assert BatchOk(s, c, x);
      if x == b {
        assert b !in s.lost;
        forall k | (k, b) in s.marked ensures k in c'.rebuilt[b] { assert k in RowsOf(s.results, b); }
      }
    }
  }

  lemma PublishKeepsLedger(s: Database)
    requires LedgerOk(s) && Enabled(s, Publish)
    ensures LedgerOk(Post(s, Publish))
  {
    var s' := Post(s, Publish);
    var c := s.consumer.value;
    forall k, b | (k, b) in s'.marked ensures Counted(s', k, b) || b in s'.dirty {
      assert Counted(s, k, b) || b in s.dirty;
      if b in c.batch { assert BatchOk(s, c, b); }
    }
    forall b | b in s'.rollups && b !in s'.lost ensures s'.rollups[b] <= RowsOf(s'.results, b) {
      if b in c.batch { assert BatchOk(s, c, b); }
    }
    StagedFrame(s, s');
  }

  lemma PruneKeepsLedger(s: Database, ks: set<Key>)
    requires LocksOk(s) && LedgerOk(s) && Enabled(s, Prune(ks))
    ensures LedgerOk(Post(s, Prune(ks)))
  {
    var s' := Post(s, Prune(ks));
    forall b | b in s'.lost && b !in s.lost ensures b !in s'.dirty && b.hour + 2 * HOUR <= MarkHorizon(s'.clock) {
      var k :| k in ks && k.source == MonitorSource && BucketOf(s.results[k]) == b;
      PrunedHour(s.results[k].startedAt, s.cutoff.value);
    }
    forall t | Holds(s', t) && s'.txs[t].staged.value.mark.Some? ensures MarkOk(s', s'.txs[t].staged.value.mark.value) {
      assert Holds(s, t) && StagedOk(s, t) && MarkOk(s, s.txs[t].staged.value.mark.value);
      HorizonGap(s.txs[t].now, s.clock);
    }
    forall b | b !in s'.lost ensures RowsOf(s.results, b) <= RowsOf(s'.results, b) {
      forall k | k in RowsOf(s.results, b) ensures k in RowsOf(s'.results, b) {}
    }
    if s.consumer.Some? {
      var c := s.consumer.value;
      forall b | b in c.batch ensures BatchOk(s', c, b) { assert BatchOk(s, c, b); }
    }
  }

  lemma PruneRollupsKeepsLedger(s: Database)
    requires LedgerOk(s) && Enabled(s, PruneRollups)
    ensures LedgerOk(Post(s, PruneRollups))
  {
    var s' := Post(s, PruneRollups);
    forall k, b | (k, b) in s'.marked ensures Counted(s', k, b) || b in s'.dirty {
      assert Counted(s, k, b) || b in s.dirty;
    }
    if s.consumer.Some? {
      var c := s.consumer.value;
      forall b | b in c.batch ensures BatchOk(s', c, b) { assert BatchOk(s, c, b); }
    }
    StagedFrame(s, s');
  }

  lemma StagedFrame(s: Database, s': Database)
    requires StagedMarksOk(s)
    requires s.clock <= s'.clock && s.lost == s'.lost
    requires forall b :: b in s'.dirty ==> b in s.dirty && s'.dirty[b] == s.dirty[b]
    requires forall t :: Holds(s', t) ==> Holds(s, t) && s'.txs[t] == s.txs[t]
    ensures StagedMarksOk(s')
  {
    forall t | Holds(s', t) && s'.txs[t].staged.value.mark.Some? ensures MarkOk(s', s'.txs[t].staged.value.mark.value) {
      assert Holds(s, t) && MarkOk(s, s.txs[t].staged.value.mark.value);
    }
  }

  /** Steps that touch neither ledger, raw rows, rollups nor staged marks. */
  lemma LedgerFrame(s: Database, s': Database)
    requires LedgerOk(s)
    requires s.clock <= s'.clock && s.dirty == s'.dirty && s.rollups == s'.rollups && s.floor == s'.floor
    requires s.marked == s'.marked && s.lost == s'.lost
    requires s'.cutoff == s.cutoff || s'.cutoff == Some(PruneCutoff(s'.clock))
    requires forall b :: RowsOf(s.results, b) <= RowsOf(s'.results, b)
    requires forall t :: Holds(s', t) ==> Holds(s, t) && s'.txs[t] == s.txs[t]
    ensures MarksOk(s') && RawOk(s') && LostOk(s') && StagedMarksOk(s') && ClockOk(s')
    ensures s'.consumer == s.consumer ==> ConsumerOk(s')
  {
    HorizonMonotone(s.clock, s'.clock);
    CutoffAligned(s'.clock);
    StagedFrame(s, s');
    forall k, b | (k, b) in s'.marked ensures Counted(s', k, b) || b in s'.dirty {
      assert Counted(s, k, b) || b in s.dirty;
    }
    if s'.consumer == s.consumer && s.consumer.Some? {
      var c := s.consumer.value;
      forall b | b in c.batch ensures BatchOk(s', c, b) { assert BatchOk(s, c, b); }
    }
  }

  /** Every step keeps the ledger invariant. */
  lemma KeepsLedger(s: Database, step: Step)
    requires LocksOk(s) && LedgerOk(s) && Enabled(s, step)
    ensures LedgerOk(Post(s, step))
  {
    match step {
      case Acquire(t, at) => AcquireKeepsLedger(s, t, at);
      case Commit(t) =>
        CommitKeepsMarks(s, t);
        CommitKeepsRaw(s, t);
        CommitKeepsConsumer(s, t);
      case Rebuild(b) => RebuildKeepsLedger(s, b);
      case Publish => PublishKeepsLedger(s);
      case Prune(ks) => PruneKeepsLedger(s, ks);
      case PruneRollups => PruneRollupsKeepsLedger(s);
      case _ => LedgerFrame(s, Post(s, step));
    }
  }

  lemma CommitKeepsRecent(s: Database, t: TxId)
    requires LocksOk(s) && RecentOk(s) && Enabled(s, Commit(t))
    ensures RecentOk(Post(s, Commit(t)))
  {
    var s' := Post(s, Commit(t));
    assert StagedOk(s, t);
    forall k | k in s'.results && k.source == MonitorSource
      ensures (k, BucketOf(s'.results[k])) in s'.marked || HourOf(s'.results[k].startedAt) < MarkHorizon(s'.clock)
    {
      var g := s.txs[t].staged.value;
      if g.row.Some? && g.row.value.key == k { HorizonMonotone(s.txs[t].now, s.clock); }
    }
  }

  lemma KeepsRecent(s: Database, step: Step)
    requires LocksOk(s) && RecentOk(s) && Enabled(s, step)
    ensures RecentOk(Post(s, step))
  {
    var s' := Post(s, step);
    match step {
      case Commit(t) => CommitKeepsRecent(s, t);
      case Acquire(_, at) => HorizonMonotone(s.clock, at);
      case Tick(to) => HorizonMonotone(s.clock, to);
      case _ =>
    }
  }

  lemma {:induction false} RunKeepsLedger(trace: seq<Database>, steps: seq<Step>, n: nat)
    requires IsRun(trace, steps) && n < |trace|
    ensures LocksOk(trace[n]) && LedgerOk(trace[n]) && RecentOk(trace[n])
  {
    RunKeepsInv(trace, steps, n);
    if n > 0 {
      RunKeepsLedger(trace, steps, n - 1);
      KeepsLedger(trace[n - 1], steps[n - 1]);
      KeepsRecent(trace[n - 1], steps[n - 1]);
    }
  }

  // ---------- What the ledger promises ----------

  /**
   Ledger safety over whole runs: a committed monitor-source row whose hour was at or after the mark
   horizon is counted in its hour's rollup (until that rollup itself expires) or its hour is still dirty.
   */
  lemma NothingIsLost(trace: seq<Database>, steps: seq<Step>, i: nat, n: nat)
    requires IsRun(trace, steps) && i < |steps| && i < n < |trace|
    requires steps[i].Commit? && trace[i].txs[steps[i].tx].staged.value.row.Some?
    requires Marks(trace[i].txs[steps[i].tx].staged.value.row.value, trace[i].txs[steps[i].tx].now)
    ensures var r := trace[i].txs[steps[i].tx].staged.value.row.value;
            Counted(trace[n], r.key, BucketOf(r)) || BucketOf(r) in trace[n].dirty
  {
    RunKeepsLedger(trace, steps, i);
    assert StagedOk(trace[i], steps[i].tx);
    var r := trace[i].txs[steps[i].tx].staged.value.row.value;
    MarkedForever(trace, steps, i + 1, n, (r.key, BucketOf(r)));
    RunKeepsLedger(trace, steps, n);
  }

  lemma MarkedForever(trace: seq<Database>, steps: seq<Step>, i: nat, n: nat, x: (Key, Bucket))
    requires IsRun(trace, steps) && i <= n < |trace| && x in trace[i].marked
    ensures x in trace[n].marked
  {
    var marks := seq(|trace|, k requires 0 <= k < |trace| => trace[k].marked);
    forall j, k | 0 <= j && k == j + 1 < |marks| ensures marks[j] <= marks[k] { MarkedThrough(trace, steps, k); }
    NeverShrinks(marks, i, n, x);
  }

  lemma {:induction false} NeverShrinks<T>(sets: seq<set<T>>, i: nat, n: nat, x: T)
    requires i <= n < |sets| && x in sets[i] && forall j, k :: 0 <= j && k == j + 1 < |sets| ==> sets[j] <= sets[k]
    ensures x in sets[n]
  {
    if i < n {
      NeverShrinks(sets, i, n - 1, x);
      assert sets[n - 1] <= sets[n];
    }
  }

  lemma MarkedThrough(trace: seq<Database>, steps: seq<Step>, n: nat)
    requires IsRun(trace, steps) && 0 < n < |trace|
    ensures trace[n - 1].marked <= trace[n].marked
  {
    MarkedKept(trace[n - 1], steps[n - 1]);
  }

  lemma MarkedKept(s: Database, step: Step)
    requires Enabled(s, step)
    ensures s.marked <= Post(s, step).marked
  {
  }

  /**
   No rebuild replaces an hour that has lost rows, and no published rebuild drops a row that the hour's
   rollup already counted.
   */
  lemma RebuildsNeverShrink(trace: seq<Database>, steps: seq<Step>, i: nat, b: Bucket)
    requires IsRun(trace, steps) && i < |steps| && steps[i] == Publish
    requires b in trace[i].consumer.value.batch
    ensures b !in trace[i].lost
    ensures b in trace[i].rollups && trace[i].rollups[b] != {} ==>
              b in trace[i + 1].rollups && trace[i].rollups[b] <= trace[i + 1].rollups[b]
  {
    RunKeepsLedger(trace, steps, i);
    assert BatchOk(trace[i], trace[i].consumer.value, b);
  }

  /** In an hour that is neither dirty nor cut nor expired, the rows that were marked are counted. */
  lemma MarkedRowsAreCounted(s: Database, b: Bucket)
    requires LedgerOk(s) && b !in s.dirty && b !in s.lost && b.hour >= s.floor
    requires forall k :: k in RowsOf(s.results, b) ==> (k, b) in s.marked
    ensures RowsOf(s.results, b) == if b in s.rollups then s.rollups[b] else {}
  {
    forall k | k in RowsOf(s.results, b) ensures b in s.rollups && k in s.rollups[b] {
      assert Counted(s, k, b) || b in s.dirty;
    }
  }

  lemma HorizonIsRecent(clock: Time)
    ensures MarkHorizon(clock) >= clock - 31 * DAY
  {
  }

  /** In every run an hour at or after the mark horizon that is not dirty is rolled up exactly, row for row. */
  lemma CleanHourIsExact(trace: seq<Database>, steps: seq<Step>, n: nat, b: Bucket)
    requires IsRun(trace, steps) && n < |trace|
    requires b !in trace[n].dirty && b.hour >= MarkHorizon(trace[n].clock)
    ensures RowsOf(trace[n].results, b) == if b in trace[n].rollups then trace[n].rollups[b] else {}
  {
    RunKeepsLedger(trace, steps, n);
    HorizonIsRecent(trace[n].clock);
    MarkedRowsAreCounted(trace[n], b);
  }
}
