/**
 Alert routing, written twice in shared/alertrouting/alertrouting.go: once as Go over counts
 (Classify) and once as SQL fragments. The fragments are evaluated here on a database state with
 SQL's three-valued logic; NULL is None.
 */
module AlertRouting {
  import opened Common

  type Id = int
  type Time = int
  type Sql<T> = Option<T>

  // ---------- Three-valued logic ----------

  function Not3(a: Sql<bool>): Sql<bool> { if a.None? then None else Some(!a.value) }

  function And3(a: Sql<bool>, b: Sql<bool>): Sql<bool> {
    if a == Some(false) || b == Some(false) then Some(false)
    else if a.None? || b.None? then None else Some(true)
  }

  function Or3(a: Sql<bool>, b: Sql<bool>): Sql<bool> {
    if a == Some(true) || b == Some(true) then Some(true)
    else if a.None? || b.None? then None else Some(false)
  }

  function Equal3<T(==)>(a: Sql<T>, b: Sql<T>): Sql<bool> {
    if a.None? || b.None? then None else Some(a.value == b.value)
  }

  function Greater3(a: Sql<int>, b: Sql<int>): Sql<bool> {
    if a.None? || b.None? then None else Some(a.value > b.value)
  }

  function Plus3(a: Sql<int>, b: Sql<int>): Sql<int> {
    if a.None? || b.None? then None else Some(a.value + b.value)
  }

  function Coalesce<T>(a: Sql<T>, b: T): T { if a.None? then b else a.value }

  /** A row passes a WHERE clause only when the clause is TRUE. */
  predicate Passes(a: Sql<bool>) { a == Some(true) }

  // ---------- Tables ----------

  datatype MonitorRow = MonitorRow(
    tenant: Id, name: string, isGroup: bool, mode: string, enabled: bool, deleted: bool,
    memberAlertRollup: string, dependencySuppression: string)

  datatype Tenant = Tenant(suppressionEnabled: bool, graceSeconds: nat)

  datatype Assignment = Assignment(owner: Id, channel: Id)

  datatype Membership = Membership(monitor: Id, group: Id)

  datatype Db = Db(
    monitors: map<Id, MonitorRow>, channels: map<Id, bool>,   // channel id to is_active
    monitorChannels: set<Assignment>, tenantDefaults: set<Assignment>, memberships: set<Membership>)

  // ---------- SQL fragments ----------

  predicate Joined(db: Db, channel: Id, activeOnly: bool) {
    channel in db.channels && (activeOnly ==> db.channels[channel])
  }

  function OwnRows(db: Db, id: Id, activeOnly: bool): set<Assignment> {
    set a | a in db.monitorChannels && a.owner == id && Joined(db, a.channel, activeOnly)
  }

  function DefaultRows(db: Db, tenant: Id, activeOnly: bool): set<Assignment> {
    set a | a in db.tenantDefaults && a.owner == tenant && Joined(db, a.channel, activeOnly)
  }

  /** ChannelCountExpr; of a row a LEFT JOIN did not find, every comparison is NULL and nothing is counted. */
  function ChannelCount(db: Db, id: Sql<Id>, activeOnly: bool): nat {
    if id.None? || id.value !in db.monitors then 0
    else
      var m := db.monitors[id.value];
      (if m.mode == "custom" then |OwnRows(db, id.value, activeOnly)| else 0)
      + (if m.mode == "default" then |DefaultRows(db, m.tenant, activeOnly)| else 0)
  }

  predicate SelfSilentGroup(m: MonitorRow) { m.isGroup && m.memberAlertRollup == "per_monitor" }

  function RollupGroups(db: Db, id: Id): set<Id> {
    set g | g in db.memberships && g.monitor == id && g.group in db.monitors
            && !db.monitors[g.group].deleted && db.monitors[g.group].memberAlertRollup == "group" :: g.group
  }

  /** The group is enabled and has a channel that delivers. */
  predicate Capable(db: Db, g: Id) {
    g in db.monitors && db.monitors[g].enabled && ChannelCount(db, Some(g), true) > 0
  }

  /** ORDER BY capable DESC, id. */
  predicate Ahead(db: Db, g: Id, h: Id) {
    if Capable(db, g) != Capable(db, h) then Capable(db, g) else g <= h
  }

  predicate IsFirst(db: Db, groups: set<Id>, g: Id) { g in groups && forall h :: h in groups ==> Ahead(db, g, h) }

  lemma {:induction false} FirstExists(db: Db, groups: set<Id>) returns (g: Id)
    requires groups != {}
    ensures IsFirst(db, groups, g)
    decreases |groups|
  {
    var x := Pick(groups);
    var rest := groups - {x};
    if rest == {} {
      g := x;
    } else {
      var y := FirstExists(db, rest);
      g := if Ahead(db, x, y) then x else y;
    }
    forall h | h in groups ensures Ahead(db, g, h) {
      if h != x { assert h in rest; }
    }
  }

  lemma FirstIsUnique(db: Db, groups: set<Id>, g: Id, h: Id)
    requires IsFirst(db, groups, g) && IsFirst(db, groups, h)
    ensures g == h
  {
    assert Ahead(db, g, h) && Ahead(db, h, g);
  }

  /** RollupGroupExpr: the first roll-up group in delivery order, or NULL. */
  ghost function RollupGroup(db: Db, id: Id): (r: Sql<Id>)
    ensures r.None? <==> RollupGroups(db, id) == {}
    ensures r.Some? ==> IsFirst(db, RollupGroups(db, id), r.value)
  {
    var groups := RollupGroups(db, id);
    if groups == {} then None
    else
      assert exists g :: IsFirst(db, groups, g) by { var g := FirstExists(db, groups); }
      var g :| IsFirst(db, groups, g);
      Some(g)
  }

  predicate SuppressedByRollup(db: Db, id: Id) {
    exists g :: g in db.memberships && g.monitor == id && g.group in db.monitors
                && !db.monitors[g.group].deleted && db.monitors[g.group].memberAlertRollup == "group"
  }

  /** The scalar subquery over monitors rg: NULL when no row has the id. */
  function CapableSql(db: Db, g: Sql<Id>): Sql<bool> {
    if g.None? || g.value !in db.monitors then None
    else And3(Some(db.monitors[g.value].enabled), Some(ChannelCount(db, g, true) > 0))
  }

  /** UnreachablePredicate. */
  ghost function Unreachable(db: Db, id: Id): Sql<bool>
    requires id in db.monitors
  {
    And3(Not3(Some(SelfSilentGroup(db.monitors[id]))),
         if RollupGroup(db, id).Some? then Not3(CapableSql(db, RollupGroup(db, id)))
         else Equal3(Some(ChannelCount(db, Some(id), true)), Some(0)))
  }

  // ---------- Classify ----------

  datatype Source = Custom | TenantDefault | GroupRollup | Members

  datatype Reason =
    | NoReason | NoCustomChannels | CustomChannelsDisabled | NoTenantDefaults | TenantDefaultsDisabled
    | GroupRollupUnrouted | GroupRollupPaused

  datatype Counts = Counts(
    mode: string, ownActive: nat, ownAssigned: nat, selfSilent: bool,
    rollupGroup: Option<Id>, rollupActive: nat, rollupAssigned: nat, rollupEnabled: bool)

  datatype Status = Status(reachable: bool, source: Source, active: nat, routed: nat, reason: Reason, group: Option<Id>)

  function Classify(c: Counts): Status {
    if c.selfSilent then Status(true, Members, 0, 0, NoReason, None)
    else if c.rollupGroup.Some? then
      var reachable := c.rollupEnabled && c.rollupActive > 0;
      Status(reachable, GroupRollup, c.rollupActive, c.rollupAssigned,
             if reachable then NoReason else if !c.rollupEnabled then GroupRollupPaused else GroupRollupUnrouted,
             c.rollupGroup)
    else
      var reachable := c.ownActive > 0;
      if c.mode == "custom" then
        Status(reachable, Custom, c.ownActive, c.ownAssigned,
               if reachable then NoReason else if c.ownAssigned > 0 then CustomChannelsDisabled else NoCustomChannels, None)
      else
        Status(reachable, TenantDefault, c.ownActive, c.ownAssigned,
               if reachable then NoReason else if c.ownAssigned > 0 then TenantDefaultsDisabled else NoTenantDefaults, None)
  }

  /** The row of GetAlertRoutingForMonitors: a LEFT JOIN on the roll-up group. */
  ghost function CountsOf(db: Db, id: Id): Counts
    requires id in db.monitors
  {
    var m := db.monitors[id];
    var g := RollupGroup(db, id);
    var row := if g.Some? && g.value in db.monitors then g else None;
    Counts(m.mode, ChannelCount(db, Some(id), true), ChannelCount(db, Some(id), false), SelfSilentGroup(m),
           row, Coalesce(Some(ChannelCount(db, row, true)), 0), Coalesce(Some(ChannelCount(db, row, false)), 0),
           Coalesce(if row.Some? then Some(db.monitors[row.value].enabled) else None, false))
  }

  // ---------- The twins agree ----------

  /** On every database state the SQL predicate is never NULL and selects exactly what Classify calls unreachable. */
  lemma TwinsAgree(db: Db, id: Id)
    requires id in db.monitors
    ensures Unreachable(db, id) == Some(!Classify(CountsOf(db, id)).reachable)
  {
    if RollupGroup(db, id).Some? { assert RollupGroup(db, id).value in RollupGroups(db, id); }
  }

  /** A rolled-up monitor is reachable exactly when any of its roll-up groups would deliver. */
  lemma AnyRollupGroupIsEnough(db: Db, id: Id)
    requires id in db.monitors && RollupGroups(db, id) != {} && !SelfSilentGroup(db.monitors[id])
    ensures Classify(CountsOf(db, id)).reachable <==> exists g :: g in RollupGroups(db, id) && Capable(db, g)
  {
    var first := RollupGroup(db, id).value;
    assert first in RollupGroups(db, id);
    forall g | g in RollupGroups(db, id) && Capable(db, g) ensures Capable(db, first) {
      assert Ahead(db, first, g);
    }
  }

  lemma SuppressionIsMembership(db: Db, id: Id)
    ensures SuppressedByRollup(db, id) <==> RollupGroups(db, id) != {}
  {
    if SuppressedByRollup(db, id) {
      var g :| g in db.memberships && g.monitor == id && g.group in db.monitors
               && !db.monitors[g.group].deleted && db.monitors[g.group].memberAlertRollup == "group";
      assert g.group in RollupGroups(db, id);
    }
  }

  /** The explanation shown to the operator names a repair that is really missing. */
  lemma ReasonIsTrue(db: Db, id: Id)
    requires id in db.monitors
    ensures var st := Classify(CountsOf(db, id));
            && (st.reachable <==> st.reason == NoReason)
            && (st.reason == GroupRollupPaused ==>
                  st.group.Some? && st.group.value in RollupGroups(db, id) && !db.monitors[st.group.value].enabled)
            && (st.reason == GroupRollupUnrouted ==>
                  && st.group.Some? && st.group.value in RollupGroups(db, id) && db.monitors[st.group.value].enabled
                  && ChannelCount(db, st.group, true) == 0)
            && (st.reason == CustomChannelsDisabled || st.reason == NoCustomChannels ==> db.monitors[id].mode == "custom")
            && (st.reason == TenantDefaultsDisabled || st.reason == NoTenantDefaults ==> db.monitors[id].mode != "custom")
            && (st.reason == CustomChannelsDisabled || st.reason == TenantDefaultsDisabled ==>
                  !SuppressedByRollup(db, id) && ChannelCount(db, Some(id), false) > ChannelCount(db, Some(id), true) == 0)
            && (st.reason == NoCustomChannels || st.reason == NoTenantDefaults ==>
                  !SuppressedByRollup(db, id) && ChannelCount(db, Some(id), false) == 0)
  {
    SuppressionIsMembership(db, id);
    if RollupGroup(db, id).Some? { assert RollupGroup(db, id).value in RollupGroups(db, id); }
  }

  /** The source and the counts shown are those of the routing that applies. */
  lemma SourceIsTrue(db: Db, id: Id)
    requires id in db.monitors
    ensures var st, m := Classify(CountsOf(db, id)), db.monitors[id];
            && (st.source == Members <==> SelfSilentGroup(m))
            && (st.source == Members ==> st.reachable && st.active == 0 && st.routed == 0 && st.group.None?)
            && (st.source == GroupRollup <==> !SelfSilentGroup(m) && SuppressedByRollup(db, id))
            && (st.source == Custom <==> !SelfSilentGroup(m) && !SuppressedByRollup(db, id) && m.mode == "custom")
            && (st.source == GroupRollup <==> st.group.Some?)
            && (st.source == GroupRollup ==>
                  && IsFirst(db, RollupGroups(db, id), st.group.value)
                  && st.active == ChannelCount(db, st.group, true) && st.routed == ChannelCount(db, st.group, false))
            && (st.source == Custom || st.source == TenantDefault ==>
                  st.active == ChannelCount(db, Some(id), true) && st.routed == ChannelCount(db, Some(id), false))
  {
    SuppressionIsMembership(db, id);
    if RollupGroup(db, id).Some? { assert RollupGroup(db, id).value in RollupGroups(db, id); }
  }

  // ---------- What the alerter delivers ----------

  /** TargetsSQL: the channels routed to one monitor of a tenant. */
  function Targets(db: Db, tenant: Id, id: Id): set<Id>
    requires id in db.monitors
  {
    (set a | a in db.monitorChannels && a.owner == id && db.monitors[id].mode == "custom" :: a.channel)
    + (set a | a in db.tenantDefaults && a.owner == tenant && db.monitors[id].tenant == a.owner
               && db.monitors[id].mode == "default" :: a.channel)
  }

  predicate Delivering(db: Db, channel: Id) { channel in db.channels && db.channels[channel] }

  /** The channel count and the delivery routing, two separate texts, agree on whether anyone is told. */
  lemma CountMatchesTargets(db: Db, id: Id)
    requires id in db.monitors
    ensures ChannelCount(db, Some(id), true) > 0 <==>
            exists c :: c in Targets(db, db.monitors[id].tenant, id) && Delivering(db, c)
  {
    var m := db.monitors[id];
    var own, defaults := OwnRows(db, id, true), DefaultRows(db, m.tenant, true);
    if m.mode == "custom" && own != {} {
      var a :| a in own;
      assert a.channel in Targets(db, m.tenant, id) && Delivering(db, a.channel);
    }
    if m.mode == "default" && defaults != {} {
      var a :| a in defaults;
      assert a.channel in Targets(db, m.tenant, id) && Delivering(db, a.channel);
    }
    if c :| c in Targets(db, m.tenant, id) && Delivering(db, c) {
      if m.mode == "custom" {
        var a :| a in db.monitorChannels && a.owner == id && a.channel == c;
        assert a in own;
      } else {
        var a :| a in db.tenantDefaults && a.owner == m.tenant && a.channel == c;
        assert a in defaults;
      }
    }
  }

  /** An open alert on this monitor reaches somebody: the alerter's own dispatch conditions. */
  predicate Pages(db: Db, id: Id) {
    && id in db.monitors && db.monitors[id].enabled && !db.monitors[id].deleted
    && !SelfSilentGroup(db.monitors[id]) && !SuppressedByRollup(db, id)
    && exists c :: c in Targets(db, db.monitors[id].tenant, id) && Delivering(db, c)
  }

  // ---------- Reachability, read off the tables ----------

  /** The channel is assigned to the monitor by its mode: its own list, or the tenant's defaults. */
  predicate Assigned(db: Db, id: Id, c: Id)
    requires id in db.monitors
  {
    || (db.monitors[id].mode == "custom" && Assignment(id, c) in db.monitorChannels)
    || (db.monitors[id].mode == "default" && Assignment(db.monitors[id].tenant, c) in db.tenantDefaults)
  }

  /** The channels counted for a monitor: assigned and existing, and switched on where only those count. */
  function ChannelsOf(db: Db, id: Id, activeOnly: bool): set<Id>
    requires id in db.monitors
  {
    set c | c in db.channels && Assigned(db, id, c) && (db.channels[c] || !activeOnly)
  }

  lemma {:induction false} OwnedSize(rows: set<Assignment>, owner: Id, cs: set<Id>)
    requires forall a :: a in rows ==> a.owner == owner
    requires forall c :: c in cs <==> Assignment(owner, c) in rows
    ensures |rows| == |cs|
  {
    if rows == {} {
      forall c ensures c !in cs {}
      assert cs == {};
    } else {
      var a := Pick(rows);
      assert a == Assignment(owner, a.channel) && a.channel in cs;
      OwnedSize(rows - {a}, owner, cs - {a.channel});
    }
  }

  /** The count of a monitor's channels counts them. */
  lemma CountMeans(db: Db, id: Id, activeOnly: bool)
    requires id in db.monitors
    ensures ChannelCount(db, Some(id), activeOnly) == |ChannelsOf(db, id, activeOnly)|
  {
    var m, cs := db.monitors[id], ChannelsOf(db, id, activeOnly);
    if m.mode == "custom" {
      OwnedSize(OwnRows(db, id, activeOnly), id, cs);
    } else if m.mode == "default" {
      OwnedSize(DefaultRows(db, m.tenant, activeOnly), m.tenant, cs);
    } else {
      assert cs == {};
    }
  }

  /** The group rolls the monitor's alerts up into its own. */
  predicate RollsUp(db: Db, id: Id, g: Id) {
    g in db.monitors && Membership(id, g) in db.memberships && db.monitors[g].memberAlertRollup == "group" && !db.monitors[g].deleted
  }

  lemma RollupMeans(db: Db, id: Id)
    ensures forall g :: g in RollupGroups(db, id) <==> RollsUp(db, id, g)
    ensures SuppressedByRollup(db, id) <==> exists g :: RollsUp(db, id, g)
  {
    forall g ensures g in RollupGroups(db, id) <==> RollsUp(db, id, g) {
      if RollsUp(db, id, g) { assert Membership(id, g).group == g; }
    }
    SuppressionIsMembership(db, id);
    if SuppressedByRollup(db, id) {
      var g :| g in RollupGroups(db, id);
      assert RollsUp(db, id, g);
    }
    if g :| RollsUp(db, id, g) { assert g in RollupGroups(db, id); }
  }

  ghost predicate HasActiveChannel(db: Db, id: Id)
    requires id in db.monitors
  {
    exists c :: c in ChannelsOf(db, id, true)
  }

  /**
   A monitor is shown as reachable exactly when it is a group that leaves alerting to its members, or some
   group that rolls it up is enabled and has an active channel, or, where none rolls it up, it has one itself.
   */
  lemma StatusMeans(db: Db, id: Id)
    requires id in db.monitors
    ensures Classify(CountsOf(db, id)).reachable <==>
            || (db.monitors[id].isGroup && db.monitors[id].memberAlertRollup == "per_monitor")
            || (exists g :: RollsUp(db, id, g) && db.monitors[g].enabled && HasActiveChannel(db, g))
            || ((forall g :: !RollsUp(db, id, g)) && HasActiveChannel(db, id))
  {
    RollupMeans(db, id);
    CountMeans(db, id, true);
    ActiveCount(db, id);
    forall g | RollsUp(db, id, g) ensures Capable(db, g) <==> db.monitors[g].enabled && HasActiveChannel(db, g) { ActiveCount(db, g); }
    if !SelfSilentGroup(db.monitors[id]) && RollupGroups(db, id) != {} {
      AnyRollupGroupIsEnough(db, id);
      var one :| one in RollupGroups(db, id);
      assert RollsUp(db, id, one);
    }
  }

  lemma ActiveCount(db: Db, id: Id)
    requires id in db.monitors
    ensures ChannelCount(db, Some(id), true) > 0 <==> HasActiveChannel(db, id)
  {
    CountMeans(db, id, true);
    if HasActiveChannel(db, id) {
      var c :| c in ChannelsOf(db, id, true);
      assert ChannelsOf(db, id, true) != {};
    }
  }

  /** Who is paged by a monitor's own alert. */
  lemma PagesMean(db: Db, id: Id)
    ensures Pages(db, id) <==>
            && id in db.monitors && db.monitors[id].enabled && !db.monitors[id].deleted
            && !(db.monitors[id].isGroup && db.monitors[id].memberAlertRollup == "per_monitor")
            && (forall g :: !RollsUp(db, id, g)) && HasActiveChannel(db, id)
  {
    RollupMeans(db, id);
    if id in db.monitors {
      CountMatchesTargets(db, id);
      ActiveCount(db, id);
    }
  }

  // ---------- Groups of groups ----------

  predicate Active(db: Db, x: Id) { x in db.monitors && db.monitors[x].enabled && !db.monitors[x].deleted }

  /** One level of refreshGroupStates: an enabled member makes its enabled group of the same tenant go down with it. */
  predicate Lifts(db: Db, x: Id, g: Id) {
    && Membership(x, g) in db.memberships && Active(db, x) && Active(db, g)
    && db.monitors[g].isGroup && db.monitors[x].tenant == db.monitors[g].tenant
  }

  predicate IsChain(db: Db, p: seq<Id>) { p != [] && forall i, j :: 0 <= i && j == i + 1 < |p| ==> Lifts(db, p[i], p[j]) }

  /** The group is down whenever the monitor is: it is reached by one or more levels. */
  ghost predicate IsAncestor(db: Db, id: Id, g: Id) {
    exists p :: IsChain(db, p) && |p| >= 2 && p[0] == id && p[|p| - 1] == g
  }

  lemma DirectAncestor(db: Db, id: Id, g: Id)
    requires Lifts(db, id, g)
    ensures IsAncestor(db, id, g)
  {
    var p := [id, g];
    assert IsChain(db, p);
  }

  lemma NextAncestor(db: Db, id: Id, g: Id, h: Id)
    requires IsAncestor(db, id, g) && Lifts(db, g, h)
    ensures IsAncestor(db, id, h)
  {
    var p :| IsChain(db, p) && |p| >= 2 && p[0] == id && p[|p| - 1] == g;
    var q := p + [h];
    forall i, j | 0 <= i && j == i + 1 < |q| ensures Lifts(db, q[i], q[j]) {
      if j < |p| { assert Lifts(db, p[i], p[j]); }
    }
    assert IsChain(db, q);
  }

  lemma AncestorIsGroup(db: Db, id: Id, g: Id)
    requires IsAncestor(db, id, g)
    ensures Active(db, g) && db.monitors[g].isGroup && Active(db, id)
    ensures exists h :: Lifts(db, id, h)
  {
    var p :| IsChain(db, p) && |p| >= 2 && p[0] == id && p[|p| - 1] == g;
    assert Lifts(db, p[|p| - 2], p[|p| - 1]);
    assert Lifts(db, p[0], p[1]);
  }

  /** When the monitor goes down, its own alert or that of some group above it, at any level, reaches somebody. */
  ghost predicate SomebodyPaged(db: Db, id: Id) { Pages(db, id) || exists g :: IsAncestor(db, id, g) && Pages(db, g) }

  /** The deciding level has a channel that delivers: the roll-up groups of a rolled-up monitor, otherwise the monitor. */
  predicate ChannelHere(db: Db, id: Id) {
    if SuppressedByRollup(db, id) then exists g :: g in RollupGroups(db, id) && Capable(db, g)
    else ChannelCount(db, Some(id), true) > 0
  }

  /** Some group above has a channel, rolls its members up and is not rolled up itself. */
  ghost predicate HasVoice(db: Db, id: Id) { exists g :: IsAncestor(db, id, g) && Speaks(db, g) }

  predicate Speaks(db: Db, g: Id) {
    Capable(db, g) && db.monitors[g].memberAlertRollup != "per_monitor" && !SuppressedByRollup(db, g)
  }

  lemma GroupPages(db: Db, id: Id, g: Id)
    requires IsAncestor(db, id, g)
    ensures Pages(db, g) <==> Speaks(db, g)
  {
    AncestorIsGroup(db, id, g);
    CountMatchesTargets(db, g);
  }

  /**
   The status shown for an enabled monitor is what the alerter delivers, exactly when: a rolled-up
   monitor with a channel at its roll-up level has a speaking group above it at some level, and a
   monitor without a channel at its own level has none.
   */
  lemma StatusIsDelivery(db: Db, id: Id)
    requires Active(db, id) && !SelfSilentGroup(db.monitors[id])
    ensures (Classify(CountsOf(db, id)).reachable <==> SomebodyPaged(db, id)) <==>
            (if ChannelHere(db, id) then SuppressedByRollup(db, id) ==> HasVoice(db, id) else !HasVoice(db, id))
  {
    SuppressionIsMembership(db, id);
    CountMatchesTargets(db, id);
    if RollupGroups(db, id) != {} { AnyRollupGroupIsEnough(db, id); }
    forall g | IsAncestor(db, id, g) ensures Pages(db, g) <==> Speaks(db, g) { GroupPages(db, id, g); }
    assert Classify(CountsOf(db, id)).reachable <==> ChannelHere(db, id);
  }

  /** Groups are groups of their members' tenant, as the groups service checks on every insert. */
  predicate GroupsOk(db: Db) {
    forall x :: x in db.memberships && x.monitor in db.monitors && x.group in db.monitors ==>
      db.monitors[x.group].isGroup && db.monitors[x.group].tenant == db.monitors[x.monitor].tenant
  }

  predicate Grouped(db: Db, id: Id) { exists x :: x in db.memberships && x.monitor == id }

  lemma FlatAncestors(db: Db, id: Id, g: Id)
    requires IsAncestor(db, id, g) && forall x :: x in db.memberships && x.monitor == id ==> !Grouped(db, x.group)
    ensures Membership(id, g) in db.memberships && !SuppressedByRollup(db, g)
  {
    var p :| IsChain(db, p) && |p| >= 2 && p[0] == id && p[|p| - 1] == g;
    assert Lifts(db, p[0], p[1]);
    LongChainNests(db, p);
  }

  lemma LongChainNests(db: Db, p: seq<Id>)
    requires IsChain(db, p) && |p| >= 2
    ensures |p| == 2 || Grouped(db, p[1])
  {
    if |p| > 2 { assert Lifts(db, p[1], p[2]); }
  }

  /** With groups one level deep the status is always what is delivered. */
  lemma FlatGroupsAgree(db: Db, id: Id)
    requires Active(db, id) && !SelfSilentGroup(db.monitors[id]) && GroupsOk(db)
    requires forall x :: x in db.memberships && x.monitor == id ==> !Grouped(db, x.group)
    requires forall g :: g in db.monitors ==> db.monitors[g].memberAlertRollup == "group" || db.monitors[g].memberAlertRollup == "per_monitor"
    ensures Classify(CountsOf(db, id)).reachable <==> SomebodyPaged(db, id)
  {
    StatusIsDelivery(db, id);
    SuppressionIsMembership(db, id);
    if ChannelHere(db, id) && SuppressedByRollup(db, id) {
      var g :| g in RollupGroups(db, id) && Capable(db, g);
      assert Membership(id, g) in db.memberships;
      DirectAncestor(db, id, g);
      FlatAncestors(db, id, g);
      assert Speaks(db, g);
    }
    if !ChannelHere(db, id) {
      forall g | IsAncestor(db, id, g) ensures !Speaks(db, g) {
        FlatAncestors(db, id, g);
        AncestorIsGroup(db, id, g);
        if db.monitors[g].memberAlertRollup == "group" { assert g in RollupGroups(db, id); }
      }
    }
  }

  // ---------- Groups two levels deep ----------

  /** A monitor in group 2 in group 3; each group has its own channel or not. */
  function Nested(inner: bool, outer: bool): Db {
    var monitor := MonitorRow(0, "web", false, "custom", true, false, "per_monitor", "inherit");
    var group := MonitorRow(0, "group", true, "custom", true, false, "group", "inherit");
    Db(map[1 := monitor, 2 := group, 3 := group], map[9 := true],
       (if inner then {Assignment(2, 9)} else {}) + (if outer then {Assignment(3, 9)} else {}), {},
       {Membership(1, 2), Membership(2, 3)})
  }

  lemma NestedFacts(inner: bool, outer: bool)
    ensures var db := Nested(inner, outer);
            && Lifts(db, 1, 2) && Lifts(db, 2, 3) && IsAncestor(db, 1, 3)
            && RollupGroups(db, 1) == {2} && RollupGroups(db, 2) == {3} && RollupGroups(db, 3) == {}
            && (Capable(db, 2) <==> inner) && (Capable(db, 3) <==> outer)
  {
    var db := Nested(inner, outer);
    assert Membership(1, 2) in db.memberships && Membership(2, 3) in db.memberships;
    DirectAncestor(db, 1, 2);
    NextAncestor(db, 1, 2, 3);
    assert 2 in RollupGroups(db, 1) && 3 in RollupGroups(db, 2);
    NestedChannels(inner, outer);
  }

  lemma NestedChannels(inner: bool, outer: bool)
    ensures var db := Nested(inner, outer);
            (ChannelCount(db, Some(2), true) > 0 <==> inner) && (ChannelCount(db, Some(3), true) > 0 <==> outer)
  {
    var db := Nested(inner, outer);
    if inner { assert Assignment(2, 9) in OwnRows(db, 2, true); } else { assert OwnRows(db, 2, true) == {}; }
    if outer { assert Assignment(3, 9) in OwnRows(db, 3, true); } else { assert OwnRows(db, 3, true) == {}; }
  }

  lemma {:induction false} NestedChain(inner: bool, outer: bool, p: seq<Id>)
    requires IsChain(Nested(inner, outer), p) && |p| >= 2 && p[0] == 1
    ensures p[|p| - 1] == 2 || p[|p| - 1] == 3
  {
    var db := Nested(inner, outer);
    assert Lifts(db, p[|p| - 2], p[|p| - 1]);
  }

  lemma NestedPages(inner: bool, outer: bool)
    ensures var db := Nested(inner, outer);
            1 in db.monitors && (Classify(CountsOf(db, 1)).reachable <==> inner) && (SomebodyPaged(db, 1) <==> outer)
  {
    var db := Nested(inner, outer);
    NestedFacts(inner, outer);
    SuppressionIsMembership(db, 1);
    SuppressionIsMembership(db, 2);
    SuppressionIsMembership(db, 3);
    AnyRollupGroupIsEnough(db, 1);
    GroupPages(db, 1, 3);
    if SomebodyPaged(db, 1) {
      var g :| IsAncestor(db, 1, g) && Pages(db, g);
      var p :| IsChain(db, p) && |p| >= 2 && p[0] == 1 && p[|p| - 1] == g;
      NestedChain(inner, outer, p);
    }
  }

  /** The channel is on the inner group only: shown as reachable, and nobody is paged. */
  lemma NestedGroupsMislead()
    ensures var db := Nested(true, false); 1 in db.monitors && Classify(CountsOf(db, 1)).reachable && !SomebodyPaged(db, 1)
  {
    NestedPages(true, false);
  }

  /** The channel is on the outer group only: shown as unreachable, and the outer group pages. */
  lemma OuterGroupStillPages()
    ensures var db := Nested(false, true); 1 in db.monitors && !Classify(CountsOf(db, 1)).reachable && SomebodyPaged(db, 1)
  {
    NestedPages(false, true);
  }

  /** Both groups have a channel: shown as reachable, and the outer group pages. */
  lemma NestedGroupsCanAgree()
    ensures var db := Nested(true, true); 1 in db.monitors && Classify(CountsOf(db, 1)).reachable && SomebodyPaged(db, 1)
  {
    NestedPages(true, true);
  }

  // ---------- Dependency suppression ----------

  datatype Alert = Alert(monitor: Id, isOpen: bool, availability: bool, triggered: Time, rootCause: Sql<Id>, clearedAt: Sql<Time>)

  /** DependencySuppressionEffectiveExpr. */
  function PolicyOn(m: MonitorRow, t: Tenant): bool {
    if m.dependencySuppression == "on" then true
    else if m.dependencySuppression == "off" then false
    else t.suppressionEnabled
  }

  /** The conjunction before COALESCE. */
  function RawSuppressed(al: Alert, m: MonitorRow, t: Tenant, now: Time): Sql<bool> {
    And3(Some(PolicyOn(m, t)),
         Or3(Some(al.rootCause.Some?), Greater3(al.clearedAt, Some(now - t.graceSeconds))))
  }

  function SuppressedSql(al: Alert, m: MonitorRow, t: Tenant, now: Time): Sql<bool> {
    Some(Coalesce(RawSuppressed(al, m, t, now), false))
  }

  /** DispatchEligibleSinceExpr. */
  function EligibleSince(al: Alert, t: Tenant): Time {
    Max(al.triggered, Coalesce(Plus3(al.clearedAt, Some(t.graceSeconds)), al.triggered))
  }

  /** A monitor's own setting decides; one that sets neither follows its tenant. */
  predicate Suppresses(m: MonitorRow, t: Tenant) {
    m.dependencySuppression == "on" || (m.dependencySuppression != "off" && t.suppressionEnabled)
  }

  /** What the predicate means, read off the timestamps. */
  predicate Explained(al: Alert, m: MonitorRow, t: Tenant, now: Time) {
    Suppresses(m, t) && (al.rootCause.Some? || (al.clearedAt.Some? && now < al.clearedAt.value + t.graceSeconds))
  }

  /** Never NULL, so the predicate and its negation split every set of alerts in two. */
  lemma SuppressionIsDecided(al: Alert, m: MonitorRow, t: Tenant, now: Time)
    ensures Passes(SuppressedSql(al, m, t, now)) <==> Explained(al, m, t, now)
    ensures Passes(Not3(SuppressedSql(al, m, t, now))) <==> !Explained(al, m, t, now)
    ensures RawSuppressed(al, m, t, now).None? <==> Suppresses(m, t) && al.rootCause.None? && al.clearedAt.None?
  {
  }

  /**
   An unsuppressed alert that has triggered is eligible by now, exactly unless the policy is off and
   its root cause cleared less than the grace period ago.
   */
  lemma UnsuppressedIsEligible(al: Alert, m: MonitorRow, t: Tenant, now: Time)
    requires al.triggered <= now && Passes(Not3(SuppressedSql(al, m, t, now)))
    ensures EligibleSince(al, t) >= al.triggered
    ensures EligibleSince(al, t) <= now <==>
            (Suppresses(m, t) || al.clearedAt.None? || al.clearedAt.value + t.graceSeconds <= now)
  {
    SuppressionIsDecided(al, m, t, now);
  }

  /** An alert may go out once it has triggered and, where its root cause has cleared, the grace period after that is over. */
  lemma EligibleMeans(al: Alert, t: Tenant, now: Time)
    ensures EligibleSince(al, t) <= now <==>
            al.triggered <= now && (al.clearedAt.Some? ==> al.clearedAt.value + t.graceSeconds <= now)
  {
  }

  /** With the policy off the grace clock still holds the alert back. */
  lemma PolicyOffStillDelays() returns (al: Alert, m: MonitorRow, t: Tenant, now: Time)
    ensures al.triggered <= now && Passes(Not3(SuppressedSql(al, m, t, now))) && EligibleSince(al, t) > now
  {
    al := Alert(1, true, true, 0, None, Some(10));
    m := MonitorRow(0, "web", false, "default", true, false, "per_monitor", "off");
    t := Tenant(true, 120);
    now := 20;
  }

  predicate Live(al: Alert, m: MonitorRow) { al.isOpen && al.availability && !m.deleted }

  /** ImpactedMonitorsSubquery: the alerts a root cause's notification stands in for. */
  predicate Impacted(al: Alert, m: MonitorRow, t: Tenant, cause: Id) {
    Passes(Equal3(al.rootCause, Some(cause))) && Live(al, m) && PolicyOn(m, t)
  }

  /** Open availability alerts of existing monitors under the policy that name the cause. */
  lemma ImpactedMeans(al: Alert, m: MonitorRow, t: Tenant, cause: Id)
    ensures Impacted(al, m, t, cause) <==> al.rootCause == Some(cause) && al.isOpen && al.availability && !m.deleted && Suppresses(m, t)
  {
  }

  /** While the cause is down the list is exactly its suppressed alerts. */
  lemma ImpactedIsSuppressed(al: Alert, m: MonitorRow, t: Tenant, cause: Id, now: Time)
    requires Live(al, m) && al.rootCause == Some(cause)
    ensures Impacted(al, m, t, cause) <==> Passes(SuppressedSql(al, m, t, now))
  {
    SuppressionIsDecided(al, m, t, now);
  }
}
