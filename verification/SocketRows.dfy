// The table of websocket sessions: rows touched while connected, disconnected
// directly or in batches once their heartbeat has lapsed, and pruned.

module SocketRows {
  import opened Wrappers
  import opened Text

  const DEFAULT_LIMIT: nat := 100
  const SWEEP_BATCH: nat := 256

  // One hour, in microseconds.
  const PRUNE_TTL: nat := 3_600_000_000

  const MAX_GENERATION: nat := 0x7fff_ffff_ffff_ffff

  // The thread, its root, the worker and the thread's generation.
  datatype Origin = Origin(threadId: int, rootThreadId: int, workerId: int, generation: nat)

  datatype Row = Row(
    origin: Origin,
    connected: bool,
    connectedAt: nat,
    lastReadAt: Option<nat>,
    lastWriteAt: Option<nat>,
    lastHeartbeatAt: nat,
    heartbeatExpiresAt: Option<nat>,
    disconnectedAt: Option<nat>,
    reason: string,
    expiresAt: Option<nat>)

  type Table = map<string, Row>

  // An unset time is None.
  datatype Touch = Touch(read: Option<nat>, write: Option<nat>, heartbeat: Option<nat>, expires: Option<nat>)

  // The table's CHECK constraints; a statement breaking one changes nothing.
  predicate Shape(row: Row) {
    && 0 < row.origin.generation <= MAX_GENERATION
    && row.connectedAt <= row.lastHeartbeatAt
    && (row.lastReadAt.Some? ==> row.connectedAt <= row.lastReadAt.value)
    && (row.lastWriteAt.Some? ==> row.connectedAt <= row.lastWriteAt.value)
    && (row.disconnectedAt.Some? ==> row.connectedAt <= row.disconnectedAt.value)
    && (row.connected <==> row.disconnectedAt.None?)
  }

  predicate Inv(rows: Table) {
    forall id :: id in rows ==> !Blank(id) && Shape(rows[id])
  }

  // ---------------------------------------------------------------------
  // One row
  // ---------------------------------------------------------------------

  // A session as it is handed over for insertion.
  datatype Registration = Registration(
    id: string,
    origin: Origin,
    state: string,
    connectedAt: Option<nat>,
    lastReadAt: Option<nat>,
    lastWriteAt: Option<nat>,
    lastHeartbeatAt: Option<nat>,
    heartbeatExpiresAt: Option<nat>,
    disconnectedAt: Option<nat>,
    reason: string,
    expiresAt: Option<nat>)

  function StateOf(reg: Registration): string {
    if Blank(reg.state) then "connected" else reg.state
  }

  predicate KnownState(state: string) {
    state == "connected" || state == "disconnected"
  }

  // The row inserted, missing times filled in.
  function Filled(reg: Registration, now: nat): Row {
    var connectedAt := if reg.connectedAt.Some? then reg.connectedAt.value else now;
    Row(reg.origin, StateOf(reg) == "connected", connectedAt, reg.lastReadAt, reg.lastWriteAt,
        if reg.lastHeartbeatAt.Some? then reg.lastHeartbeatAt.value else connectedAt,
        reg.heartbeatExpiresAt, reg.disconnectedAt, if Blank(reg.reason) then "" else reg.reason, reg.expiresAt)
  }

  // A registration gives a row exactly when its state is empty or connected
  // without a disconnection time, or disconnected with one, its generation
  // fits the column and no time lies before the connection; missing times are
  // those of the connection, which is now unless given.
  lemma RegisteredRow(reg: Registration, now: nat)
    ensures var row := Filled(reg, now);
      && row.origin == reg.origin && row.connectedAt == (if reg.connectedAt.Some? then reg.connectedAt.value else now)
      && row.lastHeartbeatAt == (if reg.lastHeartbeatAt.Some? then reg.lastHeartbeatAt.value else row.connectedAt)
      && row.lastReadAt == reg.lastReadAt && row.lastWriteAt == reg.lastWriteAt
      && row.heartbeatExpiresAt == reg.heartbeatExpiresAt && row.disconnectedAt == reg.disconnectedAt
      && row.expiresAt == reg.expiresAt && row.reason == (if TrimSpace(reg.reason) == "" then "" else reg.reason)
    ensures var row, state := Filled(reg, now), if TrimSpace(reg.state) == "" then "connected" else reg.state;
      KnownState(StateOf(reg)) && Shape(row) <==>
        && ((state == "connected" && reg.disconnectedAt.None?) || (state == "disconnected" && reg.disconnectedAt.Some?))
        && 0 < reg.origin.generation <= 0x7fff_ffff_ffff_ffff
        && forall time :: time in {reg.lastReadAt, reg.lastWriteAt, reg.disconnectedAt, Some(row.lastHeartbeatAt)} && time.Some? ==>
             row.connectedAt <= time.value
    ensures KnownState(StateOf(reg)) && Shape(Filled(reg, now)) ==> (Filled(reg, now).connected <==> reg.disconnectedAt.None?)
  {
  }

  function Later(stored: Option<nat>, touched: Option<nat>): Option<nat> {
    if touched.Some? && (stored.None? || stored.value < touched.value) then touched else stored
  }

  function Touched(row: Row, t: Touch): Row {
    row.(lastReadAt := Later(row.lastReadAt, t.read),
         lastWriteAt := Later(row.lastWriteAt, t.write),
         lastHeartbeatAt := if t.heartbeat.Some? && row.lastHeartbeatAt < t.heartbeat.value then t.heartbeat.value
                            else row.lastHeartbeatAt,
         heartbeatExpiresAt := if t.expires.Some? then t.expires else row.heartbeatExpiresAt)
  }

  // A touch reaches a connected row unless a CHECK rejects it.
  predicate Accepts(row: Row, t: Touch) {
    row.connected && Shape(Touched(row, t))
  }

  function TouchRow(row: Row, t: Touch): Row {
    if Accepts(row, t) then Touched(row, t) else row
  }

  predicate OnlySpaces(s: string) {
    forall i :: 0 <= i < |s| ==> s[i] == ' '
  }

  function DisconnectedRow(row: Row, reason: string, at: nat, expires: Option<nat>): Row {
    row.(connected := false,
         disconnectedAt := if row.disconnectedAt.Some? then row.disconnectedAt else Some(at),
         reason := if !OnlySpaces(row.reason) then row.reason else if Blank(reason) then "disconnected" else reason,
         heartbeatExpiresAt := None,
         expiresAt := if row.expiresAt.Some? then row.expiresAt else expires)
  }

  function LapsedRow(row: Row, at: nat, expires: nat): Row {
    row.(connected := false, disconnectedAt := Some(at), reason := "heartbeat_expired",
         heartbeatExpiresAt := None, expiresAt := Some(expires))
  }

  // ---------------------------------------------------------------------
  // The table
  // ---------------------------------------------------------------------

  // The rows whose heartbeat has lapsed, with the time each is ordered by.
  function Stale(rows: Table, at: nat): map<string, nat> {
    map id | id in rows && rows[id].connected && rows[id].heartbeatExpiresAt.Some? && rows[id].heartbeatExpiresAt.value <= at
      :: rows[id].heartbeatExpiresAt.value
  }

  function Doomed(rows: Table, now: nat): map<string, nat> {
    map id | id in rows && !rows[id].connected && rows[id].expiresAt.Some? && rows[id].expiresAt.value <= now
      :: rows[id].expiresAt.value
  }

  function Limit(limit: int): nat {
    if limit <= 0 then DEFAULT_LIMIT else limit
  }

  // How the database collates ids.
  type IdOrder = (string, string) -> bool

  ghost predicate TotalOrder(before: IdOrder) {
    && (forall a, b :: before(a, b) || before(b, a))
    && (forall a, b :: before(a, b) && before(b, a) ==> a == b)
    && (forall a, b, c :: before(a, b) && before(b, c) ==> before(a, c))
  }

  // By time, then by id.
  predicate Earlier(due: map<string, nat>, before: IdOrder, a: string, b: string)
    requires a in due && b in due
  {
    due[a] < due[b] || (due[a] == due[b] && before(a, b))
  }

  // A batch takes the earliest due rows, as many as its limit allows.
  ghost predicate IsBatch(due: map<string, nat>, before: IdOrder, batch: set<string>, limit: nat) {
    && batch <= due.Keys
    && |batch| == (if |due.Keys| < limit then |due.Keys| else limit)
    && forall taken, other :: taken in batch && other in due.Keys && other !in batch ==> Earlier(due, before, taken, other)
  }

  lemma SubsetOfSameSize(part: set<string>, whole: set<string>)
    requires part <= whole && |part| == |whole|
    ensures part == whole
  {
    assert |whole| == |part| + |whole - part|;
  }

  // Due rows, order and limit determine the batch.
  lemma BatchIsDetermined(due: map<string, nat>, before: IdOrder, batch: set<string>, other: set<string>, limit: nat)
    requires TotalOrder(before) && IsBatch(due, before, batch, limit) && IsBatch(due, before, other, limit)
    ensures batch == other
  {
    if batch <= other {
      SubsetOfSameSize(batch, other);
    } else {
      var mine :| mine in batch && mine !in other;
      if other <= batch {
        SubsetOfSameSize(other, batch);
      } else {
        var theirs :| theirs in other && theirs !in batch;
        assert false;
      }
    }
  }

  // A batch of lapsed rows holds connected rows whose heartbeat has expired,
  // none that expired later than one left out, and all of them when it is not
  // full.
  lemma LapsedBatch(rows: Table, at: nat, before: IdOrder, batch: set<string>, limit: nat)
    requires IsBatch(Stale(rows, at), before, batch, limit)
    ensures |batch| <= limit
    ensures forall id :: id in batch ==>
      id in rows && rows[id].connected && rows[id].heartbeatExpiresAt.Some? && rows[id].heartbeatExpiresAt.value <= at
    ensures forall id, other ::
      id in batch && other in rows && rows[other].connected && rows[other].heartbeatExpiresAt.Some?
      && rows[other].heartbeatExpiresAt.value <= at && other !in batch
      ==> && |batch| == limit
          && (|| rows[id].heartbeatExpiresAt.value < rows[other].heartbeatExpiresAt.value
              || (rows[id].heartbeatExpiresAt == rows[other].heartbeatExpiresAt && before(id, other)))
  {
    forall other | other in Stale(rows, at).Keys && other !in batch
      ensures |batch| == limit
    {
      if |batch| == |Stale(rows, at).Keys| {
        SubsetOfSameSize(batch, Stale(rows, at).Keys);
      }
    }
  }

  // A batch to prune holds disconnected rows whose time has come, likewise.
  lemma PrunedBatch(rows: Table, now: nat, before: IdOrder, batch: set<string>, limit: nat)
    requires IsBatch(Doomed(rows, now), before, batch, limit)
    ensures |batch| <= limit
    ensures forall id :: id in batch ==>
      id in rows && !rows[id].connected && rows[id].expiresAt.Some? && rows[id].expiresAt.value <= now
    ensures forall id, other ::
      id in batch && other in rows && !rows[other].connected && rows[other].expiresAt.Some?
      && rows[other].expiresAt.value <= now && other !in batch
      ==> && |batch| == limit
          && (|| rows[id].expiresAt.value < rows[other].expiresAt.value
              || (rows[id].expiresAt == rows[other].expiresAt && before(id, other)))
  {
    forall other | other in Doomed(rows, now).Keys && other !in batch
      ensures |batch| == limit
    {
      if |batch| == |Doomed(rows, now).Keys| {
        SubsetOfSameSize(batch, Doomed(rows, now).Keys);
      }
    }
  }

  function LapseRows(rows: Table, batch: set<string>, at: nat, expires: nat): Table {
    map id | id in rows :: if id in batch then LapsedRow(rows[id], at, expires) else rows[id]
  }

  // A row of the given ones was connected after `at`.
  predicate HasLate(rows: Table, ids: set<string>, at: nat) {
    exists id :: id in ids && id in rows && at < rows[id].connectedAt
  }

  predicate BatchAccepted(rows: Table, batch: set<string>, at: nat, expires: nat) {
    forall id :: id in batch && id in rows ==> Shape(LapsedRow(rows[id], at, expires))
  }

  datatype Op =
    | Create(id: string, row: Row)
    | TouchSession(id: string, touch: Touch)
    | Disconnect(id: string, reason: string, at: nat, expires: Option<nat>)
    | DisconnectExpired(batch: set<string>, at: nat, until: nat)
    | Prune(batch: set<string>, now: nat)

  function Apply(rows: Table, op: Op): Table {
    match op
    case Create(id, row) =>
      if Blank(id) || id in rows || !Shape(row) then rows else rows[id := row]
    case TouchSession(id, t) =>
      if Blank(id) || id !in rows then rows else rows[id := TouchRow(rows[id], t)]
    case Disconnect(id, reason, at, expires) =>
      if Blank(id) || id !in rows || !Shape(DisconnectedRow(rows[id], reason, at, expires)) then rows
      else rows[id := DisconnectedRow(rows[id], reason, at, expires)]
    case DisconnectExpired(batch, at, expires) =>
      if BatchAccepted(rows, batch, at, expires) then LapseRows(rows, batch, at, expires) else rows
    case Prune(batch, now) => rows - batch
  }

  lemma EarliestOf(due: map<string, nat>, before: IdOrder, ids: set<string>)
    requires TotalOrder(before) && ids != {} && ids <= due.Keys
    ensures exists id :: id in ids && forall other :: other in ids ==> Earlier(due, before, id, other)
    decreases |ids|
  {
    var some :| some in ids;
    assert Earlier(due, before, some, some);
    if ids - {some} == {} {
      assert ids == {some};
    } else {
      EarliestOf(due, before, ids - {some});
      var least :| least in ids - {some} && forall other :: other in ids - {some} ==> Earlier(due, before, least, other);
      var id := if Earlier(due, before, some, least) then some else least;
      forall other | other in ids
        ensures Earlier(due, before, id, other)
      {
        assert other == some || other in ids - {some};
      }
    }
  }

  // The earliest `limit` entries of a due list.
  method SelectEarliest(due: map<string, nat>, before: IdOrder, limit: nat) returns (batch: set<string>)
    requires TotalOrder(before)
    ensures IsBatch(due, before, batch, limit)
  {
    batch := {};
    var rest := due.Keys;
    while rest != {} && |batch| < limit
      invariant batch + rest == due.Keys && batch !! rest && |batch| <= limit
      invariant forall taken, other :: taken in batch && other in rest ==> Earlier(due, before, taken, other)
      decreases |rest|
    {
      EarliestOf(due, before, rest);
      var id :| id in rest && forall other :: other in rest ==> Earlier(due, before, id, other);
      batch, rest := batch + {id}, rest - {id};
    }
    assert |batch| + |rest| == |batch + rest|;
  }

  // ---------------------------------------------------------------------
  // The sweep
  // ---------------------------------------------------------------------

  function Swept(rows: Table, now: nat): Table {
    LapseRows(rows, Stale(rows, now).Keys, now, now + PRUNE_TTL)
  }

  function Pruned(rows: Table, now: nat): Table {
    rows - Doomed(rows, now).Keys
  }

  predicate RowExpiresAfterConnecting(row: Row) {
    row.connected && row.heartbeatExpiresAt.Some? ==> row.connectedAt <= row.heartbeatExpiresAt.value
  }

  // No heartbeat expires before its connection was made.
  ghost predicate ExpiresAfterConnecting(rows: Table) {
    forall id :: id in rows ==> RowExpiresAfterConnecting(rows[id])
  }

  lemma LapsedRowsAreNotLate(rows: Table, now: nat)
    requires ExpiresAfterConnecting(rows)
    ensures !HasLate(rows, Stale(rows, now).Keys, now)
  {
  }

  // Part of a sweep: `changed` have been disconnected, none of them connected
  // after `now`.
  ghost predicate SweptSoFar(start: Table, changed: set<string>, rows: Table, now: nat) {
    && Inv(start)
    && changed <= Stale(start, now).Keys
    && rows == LapseRows(start, changed, now, now + PRUNE_TTL)
    && !HasLate(start, changed, now)
  }

  lemma InvSoFar(start: Table, changed: set<string>, rows: Table, now: nat)
    requires SweptSoFar(start, changed, rows, now)
    ensures Inv(rows)
  {
  }

  lemma StaleAfter(rows: Table, changed: set<string>, now: nat)
    requires changed <= Stale(rows, now).Keys
    ensures Stale(LapseRows(rows, changed, now, now + PRUNE_TTL), now).Keys == Stale(rows, now).Keys - changed
  {
  }

  lemma LateRowIsStale(start: Table, changed: set<string>, before: Table, batch: set<string>, now: nat)
    requires SweptSoFar(start, changed, before, now) && batch <= Stale(before, now).Keys
    requires HasLate(before, batch, now)
    ensures HasLate(start, Stale(start, now).Keys, now)
  {
    var late :| late in batch && now < before[late].connectedAt;
    StaleAfter(start, changed, now);
    assert late in Stale(start, now).Keys && now < start[late].connectedAt;
  }

  lemma LapseTwice(rows: Table, first: set<string>, second: set<string>, at: nat, expires: nat)
    requires first !! second
    ensures LapseRows(LapseRows(rows, first, at, expires), second, at, expires) == LapseRows(rows, first + second, at, expires)
  {
  }

  lemma DisjointSizes(all: set<string>, changed: set<string>, left: set<string>, batch: set<string>)
    requires changed <= all && left == all - changed && batch <= left
    ensures |changed + batch| == |changed| + |batch| && |left - batch| == |left| - |batch|
    ensures batch == left ==> changed + batch == all
  {
    assert changed !! batch;
    assert left == batch + (left - batch);
  }

  lemma SweepStep(start: Table, changed: set<string>, before: Table, batch: set<string>, now: nat)
    requires SweptSoFar(start, changed, before, now) && batch <= Stale(before, now).Keys
    requires |batch| < SWEEP_BATCH ==> |batch| == |Stale(before, now).Keys|
    requires !HasLate(before, batch, now)
    ensures var after := LapseRows(before, batch, now, now + PRUNE_TTL);
      && SweptSoFar(start, changed + batch, after, now)
      && |changed + batch| == |changed| + |batch|
      && |Stale(after, now).Keys| == |Stale(before, now).Keys| - |batch|
      && (|batch| < SWEEP_BATCH ==> changed + batch == Stale(start, now).Keys && after == Swept(start, now))
  {
    StaleAfter(start, changed, now);
    StaleAfter(before, batch, now);
    LapseTwice(start, changed, batch, now, now + PRUNE_TTL);
    var all, left := Stale(start, now).Keys, Stale(before, now).Keys;
    DisjointSizes(all, changed, left, batch);
    if |batch| < SWEEP_BATCH {
      SubsetOfSameSize(batch, left);
    }
  }

  lemma DoomedAfter(rows: Table, gone: set<string>, now: nat)
    ensures Doomed(rows - gone, now).Keys == Doomed(rows, now).Keys - gone
  {
  }

  lemma PruneStep(start: Table, gone: set<string>, batch: set<string>, now: nat)
    requires gone <= Doomed(start, now).Keys && batch <= Doomed(start - gone, now).Keys
    requires |batch| < SWEEP_BATCH ==> |batch| == |Doomed(start - gone, now).Keys|
    ensures gone + batch <= Doomed(start, now).Keys && |gone + batch| == |gone| + |batch|
    ensures (start - gone) - batch == start - (gone + batch)
    ensures |Doomed(start - (gone + batch), now).Keys| == |Doomed(start - gone, now).Keys| - |batch|
    ensures |batch| < SWEEP_BATCH ==> gone + batch == Doomed(start, now).Keys
  {
    DoomedAfter(start, gone, now);
    DoomedAfter(start - gone, batch, now);
    assert (start - gone) - batch == start - (gone + batch);
    var all, left := Doomed(start, now).Keys, Doomed(start - gone, now).Keys;
    DisjointSizes(all, gone, left, batch);
    if |batch| < SWEEP_BATCH {
      SubsetOfSameSize(batch, left);
    }
  }

  // A completed sweep leaves no lapsed and no expired row, prunes exactly the
  // rows that had expired before it, and so leaves every row it disconnected
  // to be seen for another hour.
  lemma SweepLeavesNothingDue(rows: Table, now: nat)
    requires Inv(rows)
    ensures var after := Pruned(Swept(rows, now), now);
      && Stale(after, now) == map[] && Doomed(after, now) == map[]
      && Doomed(Swept(rows, now), now).Keys == rows.Keys - after.Keys == Doomed(rows, now).Keys
      && forall id :: id in Stale(rows, now) ==> id in after && after[id] == LapsedRow(rows[id], now, now + PRUNE_TTL)
  {
    var swept := Swept(rows, now);
    assert Doomed(swept, now).Keys == Doomed(rows, now).Keys;
    StaleAfter(rows, Stale(rows, now).Keys, now);
    assert forall id :: id in Stale(Pruned(swept, now), now) ==> id in Stale(swept, now);
    assert forall id :: id in Doomed(Pruned(swept, now), now) ==> id in Doomed(swept, now);
  }

  // Each row after a completed sweep: gone if it was disconnected and its time
  // had come; disconnected for the lapse and kept for an hour if its heartbeat
  // had expired; as it was otherwise.
  lemma RowAfterSweep(rows: Table, now: nat, id: string)
    requires Inv(rows) && id in rows
    ensures var row, after := rows[id], Pruned(Swept(rows, now), now);
      && after.Keys <= rows.Keys
      && (id !in after <==> !row.connected && row.expiresAt.Some? && row.expiresAt.value <= now)
    ensures var row, after := rows[id], Pruned(Swept(rows, now), now);
      var lapsed := row.connected && row.heartbeatExpiresAt.Some? && row.heartbeatExpiresAt.value <= now;
      && (id in after && !lapsed ==> after[id] == row)
      && (id in after && lapsed ==>
            after[id] == Row(row.origin, false, row.connectedAt, row.lastReadAt, row.lastWriteAt, row.lastHeartbeatAt,
                             None, Some(now), "heartbeat_expired", Some(now + 3_600_000_000)))
  {
    SweepLeavesNothingDue(rows, now);
  }

  // What disconnecting an existing row records: the time, the reason, or
  // "disconnected" without one, and the expiry, each unless the row has its
  // own already. Before the row's connection nothing is recorded.
  lemma RecordsDisconnection(rows: Table, id: string, reason: string, at: nat, expires: Option<nat>)
    requires Inv(rows) && id in rows
    ensures var row, after := rows[id], Apply(rows, Disconnect(id, reason, at, expires));
      if row.disconnectedAt.None? && at < row.connectedAt then after == rows
      else
        && after.Keys == rows.Keys && (forall other :: other in rows && other != id ==> after[other] == rows[other])
        && after[id].disconnectedAt == (if row.connected then Some(at) else row.disconnectedAt)
        && after[id].reason == (if exists i :: 0 <= i < |row.reason| && row.reason[i] != ' ' then row.reason
                                else if TrimSpace(reason) == "" then "disconnected" else reason)
        && after[id].expiresAt == (if row.expiresAt.Some? then row.expiresAt else expires)
        && after[id] == Row(row.origin, false, row.connectedAt, row.lastReadAt, row.lastWriteAt, row.lastHeartbeatAt,
                            None, after[id].disconnectedAt, after[id].reason, after[id].expiresAt)
  {
  }

  // ---------------------------------------------------------------------
  // The table, updated in place
  // ---------------------------------------------------------------------

  class SocketTable {
    const idOrder: IdOrder
    var rows: Table

    constructor (idOrder: IdOrder)
      ensures this.idOrder == idOrder && rows == map[]
    {
      this.idOrder, rows := idOrder, map[];
    }

    method CreateSession(reg: Registration, now: nat) returns (created: bool)
      modifies this
      ensures created <==>
        && TrimSpace(reg.id) != "" && reg.origin.threadId > 0 && reg.origin.rootThreadId > 0
        && reg.origin.workerId > 0 && reg.origin.generation > 0
        && KnownState(StateOf(reg)) && reg.id !in old(rows) && Shape(Filled(reg, now))
      ensures rows == if created then Apply(old(rows), Create(reg.id, Filled(reg, now))) else old(rows)
      ensures created ==> reg.id in rows && rows == old(rows)[reg.id := Filled(reg, now)]
    {
      if Blank(reg.id) || reg.origin.threadId <= 0 || reg.origin.rootThreadId <= 0 || reg.origin.workerId <= 0 {
        return false;
      }
      if reg.origin.generation == 0 {
        return false;
      }
      var state, connectedAt := reg.state, reg.connectedAt;
      if Blank(state) {
        state := "connected";
      }
      if connectedAt.None? {
        connectedAt := Some(now);
      }
      var heartbeatAt := reg.lastHeartbeatAt;
      if heartbeatAt.None? {
        heartbeatAt := connectedAt;
      }
      var row := Row(reg.origin, state == "connected", connectedAt.value, reg.lastReadAt, reg.lastWriteAt, heartbeatAt.value,
                     reg.heartbeatExpiresAt, reg.disconnectedAt, if Blank(reg.reason) then "" else reg.reason, reg.expiresAt);
      if !KnownState(state) || reg.id in rows || !Shape(row) {
        return false;
      }
      rows := rows[reg.id := row];
      created := true;
    }

    method TouchRowById(id: string, t: Touch) returns (rejected: bool)
      requires Inv(rows)
      modifies this
      ensures rows == Apply(old(rows), TouchSession(id, t))
      ensures rejected <==> id in old(rows) && old(rows)[id].connected && !Accepts(old(rows)[id], t)
    {
      rejected := false;
      if Blank(id) {
        return;
      }
      if t == Touch(None, None, None, None) {
        assert id in rows ==> Touched(rows[id], t) == rows[id];
        assert id in rows ==> rows[id := rows[id]] == rows;
        return;
      }
      if id in rows && rows[id].connected {
        var row := rows[id];
        if t.read.Some? && (row.lastReadAt.None? || row.lastReadAt.value < t.read.value) {
          row := row.(lastReadAt := t.read);
        }
        if t.write.Some? && (row.lastWriteAt.None? || row.lastWriteAt.value < t.write.value) {
          row := row.(lastWriteAt := t.write);
        }
        if t.heartbeat.Some? && row.lastHeartbeatAt < t.heartbeat.value {
          row := row.(lastHeartbeatAt := t.heartbeat.value);
        }
        if t.expires.Some? {
          row := row.(heartbeatExpiresAt := t.expires);
        }
        assert row == Touched(rows[id], t);
        if Shape(row) {
          rows := rows[id := row];
        } else {
          rejected := true;
          assert rows[id := rows[id]] == rows;
        }
      } else {
        assert id in rows ==> rows[id := rows[id]] == rows;
      }
    }

    method DisconnectById(id: string, reason: string, at: nat, expires: Option<nat>)
      modifies this
      ensures rows == Apply(old(rows), Disconnect(id, reason, at, expires))
    {
      if Blank(id) || id !in rows {
        return;
      }
      var row := rows[id].(connected := false, heartbeatExpiresAt := None);
      if row.disconnectedAt.None? {
        row := row.(disconnectedAt := Some(at));
      }
      if OnlySpaces(row.reason) {
        row := row.(reason := if Blank(reason) then "disconnected" else reason);
      }
      if row.expiresAt.None? {
        row := row.(expiresAt := expires);
      }
      if Shape(row) {
        rows := rows[id := row];
      }
    }

    // One batch; the statement fails as a whole if a row of it was connected
    // after the given time.
    method DisconnectExpiredBatch(at: nat, expires: nat, limit: int) returns (rejected: bool, count: nat, ghost batch: set<string>)
      requires TotalOrder(idOrder) && Inv(rows)
      modifies this
      ensures IsBatch(Stale(old(rows), at), idOrder, batch, if limit <= 0 then 100 else limit)
      ensures rows == Apply(old(rows), DisconnectExpired(batch, at, expires))
      ensures rows == if rejected then old(rows) else LapseRows(old(rows), batch, at, expires)
      ensures rejected <==> HasLate(old(rows), batch, at)
      ensures count == if rejected then 0 else |batch|
    {
      var picked := SelectEarliest(Stale(rows, at), idOrder, Limit(limit));
      batch := picked;
      rejected := !BatchAccepted(rows, picked, at, expires);
      count := 0;
      if !rejected {
        rows := LapseRows(rows, picked, at, expires);
        count := |picked|;
      }
    }

    method PruneBatch(now: nat, limit: int) returns (count: nat, ghost batch: set<string>)
      requires TotalOrder(idOrder)
      modifies this
      ensures IsBatch(Doomed(old(rows), now), idOrder, batch, if limit <= 0 then 100 else limit)
      ensures rows == Apply(old(rows), Prune(batch, now))
      ensures count == |batch|
    {
      var picked := SelectEarliest(Doomed(rows, now), idOrder, Limit(limit));
      batch := picked;
      rows := rows - picked;
      count := |picked|;
    }

    // Batches until one comes back short. Every lapsed row is disconnected
    // and counted, unless one of them was connected after `now`: then the
    // sweep stops with an error, having counted exactly the rows it changed.
    method DisconnectUntilExhausted(now: nat) returns (failed: bool, total: nat, ghost changed: set<string>)
      requires TotalOrder(idOrder) && Inv(rows)
      modifies this
      ensures failed <==> HasLate(old(rows), Stale(old(rows), now).Keys, now)
      ensures SweptSoFar(old(rows), changed, rows, now) && total == |changed|
      ensures !failed ==> changed == Stale(old(rows), now).Keys && rows == Swept(old(rows), now)
      ensures ExpiresAfterConnecting(old(rows)) ==> !failed
    {
      ghost var start := rows;
      if ExpiresAfterConnecting(rows) {
        LapsedRowsAreNotLate(rows, now);
      }
      changed := {};
      assert LapseRows(start, {}, now, now + PRUNE_TTL) == start;
      failed, total := false, 0;
      while true
        invariant SweptSoFar(start, changed, rows, now) && total == |changed|
        decreases |Stale(rows, now).Keys|
      {
        ghost var before := rows;
        InvSoFar(start, changed, before, now);
        var rejected, count, batch := DisconnectExpiredBatch(now, now + PRUNE_TTL, SWEEP_BATCH);
        if rejected {
          LateRowIsStale(start, changed, before, batch, now);
          return true, total, changed;
        }
        SweepStep(start, changed, before, batch, now);
        changed, total := changed + batch, total + count;
        if count < SWEEP_BATCH {
          return false, total, changed;
        }
      }
    }

    method PruneUntilExhausted(now: nat) returns (total: nat)
      requires TotalOrder(idOrder)
      modifies this
      ensures rows == Pruned(old(rows), now) && total == |Doomed(old(rows), now).Keys|
    {
      ghost var start, gone := rows, {};
      total := 0;
      while true
        invariant gone <= Doomed(start, now).Keys && total == |gone|
        invariant rows == start - gone
        decreases |Doomed(rows, now).Keys|
      {
        var count, batch := PruneBatch(now, SWEEP_BATCH);
        PruneStep(start, gone, batch, now);
        gone, total := gone + batch, total + count;
        if count < SWEEP_BATCH {
          return;
        }
      }
    }

    // One sweep at a time read once. With expiries after the connections it
    // disconnects every lapsed row, prunes every expired one and no other,
    // and leaves nothing due.
    method SweepSessions(now: nat) returns (disconnected: nat, pruned: nat)
      requires TotalOrder(idOrder) && Inv(rows)
      modifies this
      ensures ExpiresAfterConnecting(old(rows)) ==>
        && rows == Pruned(Swept(old(rows), now), now)
        && disconnected == |Stale(old(rows), now).Keys| && pruned == |Doomed(old(rows), now).Keys|
        && Stale(rows, now) == map[] && Doomed(rows, now) == map[]
    {
      SweepLeavesNothingDue(rows, now);
      var failed;
      ghost var changed;
      failed, disconnected, changed := DisconnectUntilExhausted(now);
      pruned := PruneUntilExhausted(now);
    }
  }

  // ---------------------------------------------------------------------
  // Runs
  // ---------------------------------------------------------------------

  ghost predicate Possible(rows: Table, op: Op) {
    match op
    case DisconnectExpired(batch, at, expires) => batch <= Stale(rows, at).Keys
    case Prune(batch, now) => batch <= Doomed(rows, now).Keys
    case _ => true
  }

  function Run(rows: Table, ops: seq<Op>): Table
    decreases |ops|
  {
    if ops == [] then rows else Run(Apply(rows, ops[0]), ops[1..])
  }

  ghost predicate PossibleRun(rows: Table, ops: seq<Op>)
    decreases |ops|
  {
    ops == [] || (Possible(rows, ops[0]) && PossibleRun(Apply(rows, ops[0]), ops[1..]))
  }

  predicate Creates(ops: seq<Op>, id: string) {
    exists i :: 0 <= i < |ops| && ops[i].Create? && ops[i].id == id
  }

  datatype Stage = Live | Disconnected | Gone

  function StageOf(rows: Table, id: string): Stage {
    if id !in rows then Gone else if rows[id].connected then Live else Disconnected
  }

  function Rank(stage: Stage): nat {
    match stage
    case Live => 0
    case Disconnected => 1
    case Gone => 2
  }

  // What has been set on a disconnected row stays.
  ghost predicate Settled(before: Row, after: Row) {
    && before.origin == after.origin && before.connectedAt == after.connectedAt && before.disconnectedAt == after.disconnectedAt
    && (!OnlySpaces(before.reason) ==> after.reason == before.reason)
    && (before.expiresAt.Some? ==> after.expiresAt == before.expiresAt)
    && before.lastReadAt == after.lastReadAt && before.lastWriteAt == after.lastWriteAt
    && before.lastHeartbeatAt == after.lastHeartbeatAt
    && (before.heartbeatExpiresAt.None? ==> after.heartbeatExpiresAt.None?)
  }

  // A registration never touches a row that is there.
  lemma CreatesOnlyNew(rows: Table, id: string, row: Row)
    ensures var after := Apply(rows, Create(id, row));
      && (forall other :: other in rows ==> other in after && after[other] == rows[other])
      && (after != rows ==> id !in rows && after.Keys == rows.Keys + {id} && after[id] == row)
      && (id !in rows && TrimSpace(id) != "" && Shape(row) ==> after != rows)
  {
  }

  lemma StepKeepsInv(rows: Table, op: Op)
    requires Inv(rows) && Possible(rows, op)
    ensures Inv(Apply(rows, op))
  {
  }

  lemma StepRaisesStage(rows: Table, op: Op, id: string)
    requires Inv(rows) && Possible(rows, op) && !Creates([op], id)
    ensures Rank(StageOf(rows, id)) <= Rank(StageOf(Apply(rows, op), id))
  {
    assert op.Create? ==> [op][0].id != id;
  }

  lemma StepSettles(rows: Table, op: Op, id: string)
    requires Inv(rows) && Possible(rows, op) && !Creates([op], id)
    requires id in rows && !rows[id].connected && id in Apply(rows, op)
    ensures Settled(rows[id], Apply(rows, op)[id])
  {
    match op
    case Create(_, _) => assert [op][0].id != id;
    case DisconnectExpired(batch, _, _) => assert Apply(rows, op)[id] == rows[id];
    case TouchSession(_, _) => assert Apply(rows, op)[id] == rows[id];
    case _ =>
  }

  lemma StepMovesForward(rows: Table, op: Op, id: string)
    requires Inv(rows) && Possible(rows, op) && !Creates([op], id)
    ensures Inv(Apply(rows, op))
    ensures Rank(StageOf(rows, id)) <= Rank(StageOf(Apply(rows, op), id))
    ensures StageOf(rows, id) == StageOf(Apply(rows, op), id) == Disconnected ==> Settled(rows[id], Apply(rows, op)[id])
  {
    StepKeepsInv(rows, op);
    StepRaisesStage(rows, op, id);
    if id in rows && !rows[id].connected && id in Apply(rows, op) {
      StepSettles(rows, op, id);
    }
  }

  lemma FirstCreatesNothing(ops: seq<Op>, id: string)
    requires ops != [] && !Creates(ops, id)
    ensures !Creates([ops[0]], id) && !Creates(ops[1..], id)
  {
    assert forall i :: 0 <= i < |ops[1..]| ==> ops[1..][i] == ops[i + 1];
    assert [ops[0]][0] == ops[0];
  }

  // A session row goes from connected to disconnected to pruned and never
  // back, and what its disconnection recorded stays.
  lemma {:induction false} RowOnlyMovesForward(rows: Table, ops: seq<Op>, id: string)
    requires Inv(rows) && PossibleRun(rows, ops) && !Creates(ops, id)
    ensures Inv(Run(rows, ops))
    ensures Rank(StageOf(rows, id)) <= Rank(StageOf(Run(rows, ops), id))
    ensures id in Run(rows, ops) ==>
      id in rows && (Run(rows, ops)[id].connected ==> rows[id].connected)
    ensures StageOf(rows, id) == StageOf(Run(rows, ops), id) == Disconnected ==> Settled(rows[id], Run(rows, ops)[id])
    decreases |ops|
  {
    if ops != [] {
      FirstCreatesNothing(ops, id);
      StepMovesForward(rows, ops[0], id);
      RowOnlyMovesForward(Apply(rows, ops[0]), ops[1..], id);
    }
  }

  // The worker sets an expiry one lease after a time read once the connection
  // is made, so never one before the connection.
  predicate SetsLaterExpiry(rows: Table, op: Op) {
    && (op.Create? ==> RowExpiresAfterConnecting(op.row))
    && (op.TouchSession? && op.touch.expires.Some? && op.id in rows ==> rows[op.id].connectedAt <= op.touch.expires.value)
  }

  ghost predicate SetsLaterExpiries(rows: Table, ops: seq<Op>)
    decreases |ops|
  {
    ops == [] || (SetsLaterExpiry(rows, ops[0]) && SetsLaterExpiries(Apply(rows, ops[0]), ops[1..]))
  }

  lemma StepKeepsExpiries(rows: Table, op: Op)
    requires ExpiresAfterConnecting(rows) && SetsLaterExpiry(rows, op)
    ensures ExpiresAfterConnecting(Apply(rows, op))
  {
  }

  // Over every run of such operations, sweeps included, no lapsed row was
  // connected after the time of a sweep: the sweep never fails and leaves
  // nothing lapsed.
  lemma {:induction false} SweepNeverFails(rows: Table, ops: seq<Op>, now: nat)
    requires Inv(rows) && ExpiresAfterConnecting(rows)
    requires PossibleRun(rows, ops) && SetsLaterExpiries(rows, ops)
    ensures var swept := Run(rows, ops);
      && Inv(swept) && ExpiresAfterConnecting(swept)
      && !HasLate(swept, Stale(swept, now).Keys, now)
      && Stale(Swept(swept, now), now) == map[]
    decreases |ops|
  {
    if ops == [] {
      LapsedRowsAreNotLate(rows, now);
      StaleAfter(rows, Stale(rows, now).Keys, now);
      assert Stale(Swept(rows, now), now).Keys == {};
    } else {
      StepKeepsInv(rows, ops[0]);
      StepKeepsExpiries(rows, ops[0]);
      SweepNeverFails(Apply(rows, ops[0]), ops[1..], now);
    }
  }

  // With an expiry before the connection, and a sweep between the two, the
  // batch statement fails and the other lapsed rows stay connected with it.
  lemma AnEarlyExpiryBlocksTheSweep(origin: Origin)
    requires 0 < origin.generation <= MAX_GENERATION
    ensures var early := Row(origin, true, 10, None, None, 10, Some(5), None, "", None);
      var lapsed := Row(origin, true, 1, None, None, 1, Some(5), None, "", None);
      var rows := map["a" := early, "b" := lapsed];
      && Shape(early) && Shape(lapsed) && "b" in Stale(rows, 7)
      && HasLate(rows, Stale(rows, 7).Keys, 7) && Apply(rows, DisconnectExpired(Stale(rows, 7).Keys, 7, 7 + PRUNE_TTL)) == rows
  {
    var early := Row(origin, true, 10, None, None, 10, Some(5), None, "", None);
    var lapsed := Row(origin, true, 1, None, None, 1, Some(5), None, "", None);
    var rows := map["a" := early, "b" := lapsed];
    assert "a" in Stale(rows, 7).Keys && 7 < rows["a"].connectedAt;
    assert !Shape(LapsedRow(rows["a"], 7, 7 + PRUNE_TTL));
  }

  // ---------------------------------------------------------------------
  // The touched times
  // ---------------------------------------------------------------------

  datatype Column = Reads | Writes | Heartbeats

  function TimeOf(t: Touch, column: Column): Option<nat> {
    match column
    case Reads => t.read
    case Writes => t.write
    case Heartbeats => t.heartbeat
  }

  function Stored(row: Row, column: Column): Option<nat> {
    match column
    case Reads => row.lastReadAt
    case Writes => row.lastWriteAt
    case Heartbeats => Some(row.lastHeartbeatAt)
  }

  predicate AtMost(a: Option<nat>, b: Option<nat>) {
    a.Some? ==> b.Some? && a.value <= b.value
  }

  // `time` is the latest of a stored time and those of some touches.
  ghost predicate IsLatest(time: Option<nat>, stored: Option<nat>, touches: seq<Touch>, column: Column) {
    && (time == stored || exists t :: t in touches && TimeOf(t, column) == time)
    && AtMost(stored, time)
    && forall t :: t in touches ==> AtMost(TimeOf(t, column), time)
  }

  // The touches of one row that reach it in a run.
  function Accepted(rows: Table, ops: seq<Op>, id: string): seq<Touch>
    decreases |ops|
  {
    if ops == [] then []
    else
      var rest := Accepted(Apply(rows, ops[0]), ops[1..], id);
      if ops[0].TouchSession? && ops[0].id == id && id in rows && Accepts(rows[id], ops[0].touch) then [ops[0].touch] + rest
      else rest
  }

  lemma LatestStep(time: Option<nat>, row: Row, t: Touch, rest: seq<Touch>, column: Column)
    requires IsLatest(time, Stored(Touched(row, t), column), rest, column)
    ensures IsLatest(time, Stored(row, column), [t] + rest, column)
  {
    var all := [t] + rest;
    assert all[0] == t && t in all;
    if time == Stored(Touched(row, t), column) {
      assert time == Stored(row, column) || TimeOf(t, column) == time;
    } else {
      var u :| u in rest && TimeOf(u, column) == time;
      assert u in all;
    }
    assert forall u :: u in all ==> u == t || u in rest;
  }

  lemma StepTime(rows: Table, op: Op, id: string, column: Column)
    requires Inv(rows) && Possible(rows, op) && !Creates([op], id) && id in rows && id in Apply(rows, op)
    ensures Stored(Apply(rows, op)[id], column) ==
      Stored(if op.TouchSession? && op.id == id && Accepts(rows[id], op.touch) then Touched(rows[id], op.touch) else rows[id], column)
  {
    assert op.Create? ==> [op][0].id != id;
  }

  // Through any run of a row's life, its read, write and heartbeat times are
  // the latest of those that reached it while it was connected.
  lemma {:induction false} TimesAreTheLatestTouched(rows: Table, ops: seq<Op>, id: string, column: Column)
    requires Inv(rows) && PossibleRun(rows, ops) && !Creates(ops, id)
    requires id in rows && id in Run(rows, ops)
    ensures IsLatest(Stored(Run(rows, ops)[id], column), Stored(rows[id], column), Accepted(rows, ops, id), column)
    decreases |ops|
  {
    if ops != [] {
      var op, next := ops[0], Apply(rows, ops[0]);
      FirstCreatesNothing(ops, id);
      StepMovesForward(rows, op, id);
      RowOnlyMovesForward(next, ops[1..], id);
      TimesAreTheLatestTouched(next, ops[1..], id, column);
      StepTime(rows, op, id, column);
      if op.TouchSession? && op.id == id && Accepts(rows[id], op.touch) {
        LatestStep(Stored(Run(rows, ops)[id], column), rows[id], op.touch, Accepted(next, ops[1..], id), column);
      }
    }
  }

  // The last expiry set by some touches.
  function LastExpiry(stored: Option<nat>, touches: seq<Touch>): Option<nat>
    decreases |touches|
  {
    if touches == [] then stored
    else LastExpiry(if touches[0].expires.Some? then touches[0].expires else stored, touches[1..])
  }

  lemma StepExpiry(rows: Table, op: Op, id: string)
    requires Inv(rows) && Possible(rows, op) && !Creates([op], id)
    requires id in rows && rows[id].connected && id in Apply(rows, op)
    ensures var after := Apply(rows, op)[id];
      after.heartbeatExpiresAt ==
        if !after.connected then None
        else if op.TouchSession? && op.id == id && Accepts(rows[id], op.touch) && op.touch.expires.Some? then op.touch.expires
        else rows[id].heartbeatExpiresAt
  {
    assert op.Create? ==> [op][0].id != id;
  }

  // As long as a row is connected its heartbeat expires when the last touch
  // that reached it said, be that later or earlier than before; once it is
  // disconnected nothing of it lapses any more.
  lemma {:induction false} ExpiryIsTheLastTouched(rows: Table, ops: seq<Op>, id: string)
    requires Inv(rows) && PossibleRun(rows, ops) && !Creates(ops, id)
    requires id in rows && rows[id].connected && id in Run(rows, ops)
    ensures Run(rows, ops)[id].heartbeatExpiresAt ==
      if Run(rows, ops)[id].connected then LastExpiry(rows[id].heartbeatExpiresAt, Accepted(rows, ops, id)) else None
    decreases |ops|
  {
    if ops != [] {
      var next := Apply(rows, ops[0]);
      FirstCreatesNothing(ops, id);
      StepMovesForward(rows, ops[0], id);
      RowOnlyMovesForward(next, ops[1..], id);
      StepExpiry(rows, ops[0], id);
      if next[id].connected {
        ExpiryIsTheLastTouched(next, ops[1..], id);
        var touches := Accepted(rows, ops, id);
        assert touches != Accepted(next, ops[1..], id) ==> touches[1..] == Accepted(next, ops[1..], id);
      }
    }
  }

  // A touch fits a row when it does not set a time before the connection to a
  // column still unset.
  predicate Fits(row: Row, t: Touch) {
    && (row.lastReadAt.None? && t.read.Some? ==> row.connectedAt <= t.read.value)
    && (row.lastWriteAt.None? && t.write.Some? ==> row.connectedAt <= t.write.value)
  }

  function TouchAll(row: Row, touches: seq<Touch>): Row
    decreases |touches|
  {
    if touches == [] then row else TouchAll(TouchRow(row, touches[0]), touches[1..])
  }

  predicate AllAccepted(row: Row, touches: seq<Touch>)
    decreases |touches|
  {
    touches == [] || (Accepts(row, touches[0]) && AllAccepted(TouchRow(row, touches[0]), touches[1..]))
  }

  // A touch reaches a well-formed row exactly when the row is connected and
  // the touch fits it.
  lemma ReachesIff(row: Row, t: Touch)
    requires Shape(row)
    ensures Accepts(row, t) <==> row.connected && Fits(row, t)
    ensures Accepts(row, t) ==>
      TouchRow(row, t) == row.(
        lastReadAt := TouchRow(row, t).lastReadAt,
        lastWriteAt := TouchRow(row, t).lastWriteAt,
        lastHeartbeatAt := TouchRow(row, t).lastHeartbeatAt,
        heartbeatExpiresAt := if t.expires.Some? then t.expires else row.heartbeatExpiresAt)
  {
  }

  lemma {:induction false} FittingTouchesAreAccepted(row: Row, touches: seq<Touch>)
    requires Shape(row) && row.connected
    requires forall t :: t in touches ==> Fits(row, t)
    ensures AllAccepted(row, touches)
    decreases |touches|
  {
    if touches != [] {
      assert touches[0] in touches;
      assert forall t :: t in touches[1..] ==> t in touches;
      FittingTouchesAreAccepted(TouchRow(row, touches[0]), touches[1..]);
    }
  }

  ghost predicate NoOrderLosesATouch(row: Row, touches: seq<Touch>) {
    forall order: seq<Touch> :: multiset(order) == multiset(touches) ==> AllAccepted(row, order)
  }

  lemma LosingOrder(row: Row, touches: seq<Touch>, i: nat)
    requires i < |touches| && !Fits(row, touches[i])
    ensures !NoOrderLosesATouch(row, touches)
  {
    var order := [touches[i]] + (touches[..i] + touches[i + 1..]);
    assert touches == touches[..i] + ([touches[i]] + touches[i + 1..]);
    assert multiset(order) == multiset(touches);
    assert order[0] == touches[i];
    assert !AllAccepted(row, order);
  }

  lemma SameTouches(order: seq<Touch>, touches: seq<Touch>)
    requires multiset(order) == multiset(touches)
    ensures forall t :: t in order <==> t in touches
  {
    assert forall t :: t in order <==> t in multiset(order);
    assert forall t :: t in touches <==> t in multiset(touches);
  }

  // No order of a set of touches loses one exactly when each of them fits.
  lemma NoOrderLosesATouchIff(row: Row, touches: seq<Touch>)
    requires Shape(row) && row.connected
    ensures NoOrderLosesATouch(row, touches) <==> (forall t :: t in touches ==> Fits(row, t))
  {
    if forall t :: t in touches ==> Fits(row, t) {
      forall order: seq<Touch> | multiset(order) == multiset(touches)
        ensures AllAccepted(row, order)
      {
        SameTouches(order, touches);
        FittingTouchesAreAccepted(row, order);
      }
    } else {
      var i :| 0 <= i < |touches| && !Fits(row, touches[i]);
      LosingOrder(row, touches, i);
    }
  }

  lemma {:induction false} TouchAllLatest(row: Row, touches: seq<Touch>, column: Column)
    requires AllAccepted(row, touches)
    ensures IsLatest(Stored(TouchAll(row, touches), column), Stored(row, column), touches, column)
    decreases |touches|
  {
    if touches != [] {
      var next := TouchRow(row, touches[0]);
      TouchAllLatest(next, touches[1..], column);
      LatestStep(Stored(TouchAll(row, touches), column), row, touches[0], touches[1..], column);
      assert [touches[0]] + touches[1..] == touches;
    }
  }

  // Touches that fit give the same times in every order.
  lemma OrderOfTouchesIsIrrelevant(row: Row, touches: seq<Touch>, order: seq<Touch>, column: Column)
    requires Shape(row) && row.connected && multiset(order) == multiset(touches)
    requires forall t :: t in touches ==> Fits(row, t)
    ensures Stored(TouchAll(row, order), column) == Stored(TouchAll(row, touches), column)
  {
    NoOrderLosesATouchIff(row, touches);
    assert AllAccepted(row, touches) && AllAccepted(row, order);
    TouchAllLatest(row, touches, column);
    TouchAllLatest(row, order, column);
    SameTouches(order, touches);
  }

  lemma TouchPair(row: Row, t: Touch, u: Touch)
    ensures TouchAll(row, [t, u]) == TouchRow(TouchRow(row, t), u)
  {
    var next := TouchRow(row, t);
    assert TouchAll(next, [u]) == TouchAll(TouchRow(next, u), []) by {
      assert [u][1..] == [];
    }
    assert [t, u][1..] == [u];
  }

  // One touch that does not fit makes the order matter: arriving first it is
  // rejected as a whole and its heartbeat with it; arriving later its early
  // read time is ignored and its heartbeat stays.
  lemma AnEarlyReadLosesAHeartbeat(origin: Origin)
    requires 0 < origin.generation <= MAX_GENERATION
    ensures var row := Row(origin, true, 10, None, None, 10, None, None, "", None);
      var early, later := Touch(Some(5), None, Some(20), None), Touch(Some(12), None, None, None);
      && Stored(TouchAll(row, [early, later]), Heartbeats) == Some(10)
      && Stored(TouchAll(row, [later, early]), Heartbeats) == Some(20)
  {
    var row := Row(origin, true, 10, None, None, 10, None, None, "", None);
    var early, later := Touch(Some(5), None, Some(20), None), Touch(Some(12), None, None, None);
    TouchPair(row, early, later);
    TouchPair(row, later, early);
  }
}
