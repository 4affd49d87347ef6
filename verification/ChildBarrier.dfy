// The fan-in barrier of one spawn group: child results arrive duplicated,
// reordered and redelivered, every database or network call may fail, and a
// recovery path picks up what a failed delivery left behind.

module ChildBarrier {
  import opened Wrappers
  import opened DocQueryRound
  import T = ToolDispatch

  // ---------------------------------------------------------------------
  // Rows
  // ---------------------------------------------------------------------

  datatype GroupStatus = NoStatus | Waiting | Closed | GroupCancelled

  // documents is the children's document_id column, joined into every listing.
  datatype Group = Group(
    id: int, parentCallId: string, citations: bool, expected: nat, documents: map<int, int>,
    completed: int, failed: int, cancelled: int, status: GroupStatus,
    submittedAt: Option<int>, submittedBy: int)

  datatype Payload = Payload(
    status: string, responseId: string, assistantText: string,
    resultRef: string, summaryRef: string, errorRef: string, toolCallArgs: string)

  datatype Row = Pending | Reported(payload: Payload, updatedAt: int)

  datatype Parent = Parent(status: T.Status, activeGroup: int, activeResponse: string)

  datatype Source = Direct | Recovered

  // A continuation sent to the parent with the aggregated child results.
  datatype Sent = Sent(source: Source, command: int, items: seq<CallOutput>)

  datatype State = State(group: Group, rows: map<int, Row>, parent: Parent, sent: seq<Sent>)

  // The call that fails, if any; what was written before it stays written.
  // AtUpsert and AtClaim also stand for whatever fails before them, such as a
  // command's preconditions.
  datatype Fault =
    | NoFault | AtUpsert | AtSaveTarget | AtSaveGroup | AtMarkSubmitted
    | AtClaim | AtSaveParent | AtSession | AtAppend

  // citationItems stands for the remote finalize calls of a citation group.
  datatype Op =
    | Deliver(command: int, child: int, payload: Payload, warmup: bool, now: int, fault: Fault, citationItems: Result<seq<CallOutput>, string>)
    | Recover(command: int, force: bool, now: int, fault: Fault, citationItems: Result<seq<CallOutput>, string>)
    | ParentMoves(parent: Parent)

  // ---------------------------------------------------------------------
  // Listing and counting results
  // ---------------------------------------------------------------------

  function ReportedIn(rows: map<int, Row>): set<int> {
    set c | c in rows && rows[c].Reported?
  }

  predicate Before(rows: map<int, Row>, a: int, b: int)
    requires a in ReportedIn(rows) && b in ReportedIn(rows)
  {
    rows[a].updatedAt < rows[b].updatedAt || (rows[a].updatedAt == rows[b].updatedAt && a <= b)
  }

  lemma EarliestExists(rows: map<int, Row>, keys: set<int>)
    requires keys != {} && keys <= ReportedIn(rows)
    ensures exists m :: m in keys && forall k :: k in keys ==> Before(rows, m, k)
  {
    assert (forall k :: k !in keys) ==> keys == {};
    var x :| x in keys;
    var rest := keys - {x};
    if rest == {} {
      assert keys == {x};
    } else {
      EarliestExists(rows, rest);
      var m :| m in rest && forall k :: k in rest ==> Before(rows, m, k);
      var least := if Before(rows, x, m) then x else m;
      forall k | k in keys
        ensures Before(rows, least, k)
      {
        assert k == x || k in rest;
      }
    }
  }

  // ORDER BY updated_at, child_thread_id.
  function Order(rows: map<int, Row>, keys: set<int>): seq<int>
    requires keys <= ReportedIn(rows)
  {
    if keys == {} then []
    else
      EarliestExists(rows, keys);
      var m :| m in keys && forall k :: k in keys ==> Before(rows, m, k);
      [m] + Order(rows, keys - {m})
  }

  function ResultOf(documents: map<int, int>, child: int, row: Row): ChildResult
    requires row.Reported?
  {
    var p := row.payload;
    ChildResult(child, if child in documents then documents[child] else 0, p.status, p.responseId,
                p.assistantText, p.resultRef, p.summaryRef, p.errorRef, p.toolCallArgs)
  }

  function ResultsOf(documents: map<int, int>, rows: map<int, Row>, order: seq<int>): seq<ChildResult>
    requires forall i :: 0 <= i < |order| ==> order[i] in rows && rows[order[i]].Reported?
  {
    seq(|order|, i requires 0 <= i < |order| && order[i] in rows && rows[order[i]].Reported? => ResultOf(documents, order[i], rows[order[i]]))
  }

  lemma OrderListsKeys(rows: map<int, Row>, keys: set<int>)
    requires keys <= ReportedIn(rows)
    ensures |Order(rows, keys)| == |keys|
    ensures forall i :: 0 <= i < |Order(rows, keys)| ==> Order(rows, keys)[i] in keys
  {
  }

  // ListSpawnResults: every reported child, in order.
  function Listing(documents: map<int, int>, rows: map<int, Row>): seq<ChildResult> {
    OrderListsKeys(rows, ReportedIn(rows));
    ResultsOf(documents, rows, Order(rows, ReportedIn(rows)))
  }

  function CountOf(results: seq<ChildResult>, status: string): nat {
    if results == [] then 0
    else CountOf(results[..|results| - 1], status) + (if results[|results| - 1].status == status then 1 else 0)
  }

  function Recount(g: Group, results: seq<ChildResult>): Group {
    var c, f, x := CountOf(results, "completed"), CountOf(results, "failed"), CountOf(results, "cancelled");
    g.(completed := c, failed := f, cancelled := x,
       status := if c + f + x >= g.expected then Closed else if g.status.NoStatus? then Waiting else g.status)
  }

  method SummarizeSpawnResults(results: seq<ChildResult>) returns (completed: nat, failed: nat, cancelled: nat)
    ensures completed == CountOf(results, "completed") && failed == CountOf(results, "failed")
    ensures cancelled == CountOf(results, "cancelled")
  {
    completed, failed, cancelled := 0, 0, 0;
    for n := 0 to |results|
      invariant completed == CountOf(results[..n], "completed") && failed == CountOf(results[..n], "failed")
      invariant cancelled == CountOf(results[..n], "cancelled")
    {
      assert results[..n + 1][..n] == results[..n];
      if results[n].status == "completed" {
        completed := completed + 1;
      } else if results[n].status == "failed" {
        failed := failed + 1;
      } else if results[n].status == "cancelled" {
        cancelled := cancelled + 1;
      }
    }
    assert results[..|results|] == results;
  }

  function Items(json: Json<QueryCall>, g: Group, rows: map<int, Row>, citationItems: Result<seq<CallOutput>, string>)
    : Result<seq<CallOutput>, string>
  {
    if g.citations then citationItems else Aggregate(json, g.id, g.parentCallId, Listing(g.documents, rows))
  }

  // ---------------------------------------------------------------------
  // Steps
  // ---------------------------------------------------------------------

  function Upsert(rows: map<int, Row>, child: int, payload: Payload, now: int): map<int, Row> {
    if child in rows && rows[child].Reported? then rows else rows[child := Reported(payload, now)]
  }

  // The parent is waiting on this group, or on a group it does not name.
  predicate Accepts(s: State, op: Op)
    requires op.Deliver?
  {
    && s.parent.status == T.WaitingChildren
    && (s.parent.activeGroup <= 0 || s.parent.activeGroup == s.group.id)
    && !(op.warmup && op.payload.status == "completed")
  }

  function Submit(s: State, source: Source, command: int, items: seq<CallOutput>, fault: Fault): State {
    if fault in {AtClaim, AtSaveParent} then s
    else
      var running := s.(parent := s.parent.(status := T.Running));
      if fault in {AtSession, AtAppend} then running
      else running.(sent := s.sent + [Sent(source, command, items)])
  }

  // What a delivery does once its result is recorded: recount, and resume the
  // parent when the last result is in.
  function AfterUpsert(json: Json<QueryCall>, s: State, op: Op): State
    requires op.Deliver?
  {
    var g := Recount(s.group, Listing(s.group.documents, s.rows));
    if g.submittedAt.None? && g.completed + g.failed + g.cancelled >= g.expected then
      match Items(json, g, s.rows, op.citationItems)
      case Err(_) => s
      case Ok(items) =>
        if op.fault == AtSaveGroup then s
        else Submit(s.(group := g.(submittedAt := Some(op.now), submittedBy := op.command)), Direct, op.command, items, op.fault)
    else if op.fault == AtSaveGroup then s
    else s.(group := g)
  }

  function DeliverStep(json: Json<QueryCall>, s: State, op: Op): State
    requires op.Deliver?
  {
    if !Accepts(s, op) || op.fault == AtUpsert then s
    else
      var stored := !(op.child in s.rows && s.rows[op.child].Reported?);
      var s1 := s.(rows := Upsert(s.rows, op.child, op.payload, op.now));
      if !stored && s.group.submittedAt.Some? then s1 else AfterUpsert(json, s1, op)
  }

  predicate NeedsBarrierRecovery(p: Parent) {
    p.activeGroup > 0 && p.activeResponse == "" && p.status in {T.WaitingChildren, T.Running, T.Reconciling}
  }

  function RecoverTarget(p: Parent, force: bool): T.Status {
    if NeedsBarrierRecovery(p) then T.WaitingChildren
    else if force || p.status in {T.Running, T.Reconciling} || p.activeResponse != "" then T.Reconciling
    else p.status
  }

  function RecoverBarrier(json: Json<QueryCall>, s: State, op: Op): State
    requires op.Recover?
  {
    if op.fault == AtSaveGroup then s
    else
      var g := Recount(s.group, Listing(s.group.documents, s.rows));
      var saved := s.(group := g);
      if g.status != Closed then saved
      else
        match Items(json, g, s.rows, op.citationItems)
        case Err(_) => saved
        case Ok(items) =>
          if g.submittedAt.None? && op.fault == AtMarkSubmitted then saved
          else
            var marked := if g.submittedAt.None? then g.(submittedAt := Some(op.now), submittedBy := op.command) else g;
            Submit(saved.(group := marked), Recovered, op.command, items, op.fault)
  }

  function RecoverStep(json: Json<QueryCall>, s: State, op: Op): State
    requires op.Recover?
  {
    if op.fault in {AtClaim, AtSaveTarget} then s
    else
      var s0 := s.(parent := s.parent.(status := RecoverTarget(s.parent, op.force)));
      if s0.parent.status == T.WaitingChildren && s0.parent.activeGroup == s0.group.id then RecoverBarrier(json, s0, op)
      else s0
  }

  function Step(json: Json<QueryCall>, s: State, op: Op): State {
    match op
    case Deliver(_, _, _, _, _, _, _) => DeliverStep(json, s, op)
    case Recover(_, _, _, _, _) => RecoverStep(json, s, op)
    case ParentMoves(parent) => s.(parent := parent)
  }

  // ---------------------------------------------------------------------
  // The rows updated in place
  // ---------------------------------------------------------------------

  class BarrierStore {
    const json: Json<QueryCall>
    var group: Group
    var rows: map<int, Row>
    var parent: Parent
    var sent: seq<Sent>

    ghost function Contents(): State
      reads this
    {
      State(group, rows, parent, sent)
    }

    method UpsertSpawnResult(child: int, payload: Payload, now: int) returns (stored: bool, results: seq<ChildResult>)
      modifies this`rows
      ensures rows == Upsert(old(rows), child, payload, now)
      ensures stored <==> !(child in old(rows) && old(rows)[child].Reported?)
      ensures results == Listing(group.documents, rows)
    {
      stored := !(child in rows && rows[child].Reported?);
      if stored {
        rows := rows[child := Reported(payload, now)];
      }
      results := Listing(group.documents, rows);
    }

    method AggregateFor(g: Group, results: seq<ChildResult>, citationItems: Result<seq<CallOutput>, string>)
      returns (items: Result<seq<CallOutput>, string>)
      requires results == Listing(g.documents, rows)
      ensures items == Items(json, g, rows, citationItems)
    {
      if g.citations {
        return citationItems;
      }
      items := AggregateSpawnOutputItem(json, g.id, g.parentCallId, results);
    }

    method Resume(source: Source, command: int, items: seq<CallOutput>, fault: Fault)
      modifies this`parent, this`sent
      ensures Contents() == Submit(old(Contents()), source, command, items, fault)
    {
      if fault == AtClaim || fault == AtSaveParent {
        return;
      }
      parent := parent.(status := T.Running);
      if fault == AtSession || fault == AtAppend {
        return;
      }
      sent := sent + [Sent(source, command, items)];
    }

    method HandleChildResult(op: Op)
      requires op.Deliver?
      modifies this
      ensures Contents() == Step(json, old(Contents()), op)
    {
      if parent.status != T.WaitingChildren {
        return;
      }
      if parent.activeGroup > 0 && parent.activeGroup != group.id {
        return;
      }
      if op.warmup && op.payload.status == "completed" {
        return;
      }
      if op.fault == AtUpsert {
        return;
      }
      var stored, results := UpsertSpawnResult(op.child, op.payload, op.now);
      if !stored && group.submittedAt.Some? {
        return;
      }
      CountAndResume(op, results);
    }

    // The second half of handling a result: everything after it is recorded.
    method CountAndResume(op: Op, results: seq<ChildResult>)
      requires op.Deliver? && results == Listing(group.documents, rows)
      modifies this
      ensures Contents() == AfterUpsert(json, old(Contents()), op)
    {
      var spawn := group;
      var completed, failed, cancelled := SummarizeSpawnResults(results);
      spawn := spawn.(completed := completed, failed := failed, cancelled := cancelled);
      if spawn.completed + spawn.failed + spawn.cancelled >= spawn.expected {
        spawn := spawn.(status := Closed);
      } else if spawn.status == NoStatus {
        spawn := spawn.(status := Waiting);
      }
      if spawn.submittedAt.None? && spawn.completed + spawn.failed + spawn.cancelled >= spawn.expected {
        var items := AggregateFor(spawn, results, op.citationItems);
        if items.Err? || op.fault == AtSaveGroup {
          return;
        }
        group := spawn.(submittedAt := Some(op.now), submittedBy := op.command);
        Resume(Direct, op.command, items.value, op.fault);
        return;
      }
      if op.fault == AtSaveGroup {
        return;
      }
      group := spawn;
    }

    method RecoverThread(op: Op)
      requires op.Recover?
      modifies this
      ensures Contents() == Step(json, old(Contents()), op)
    {
      if op.fault == AtClaim || op.fault == AtSaveTarget {
        return;
      }
      parent := parent.(status := RecoverTarget(parent, op.force));
      if parent.status == T.WaitingChildren && parent.activeGroup == group.id {
        RecoverWaitingChildren(op);
      }
    }

    method RecoverWaitingChildren(op: Op)
      requires op.Recover? && parent.status == T.WaitingChildren && parent.activeGroup == group.id
      requires op.fault != AtClaim
      modifies this
      ensures Contents() == RecoverBarrier(json, old(Contents()), op)
    {
      var spawn := group;
      var results := Listing(group.documents, rows);
      var completed, failed, cancelled := SummarizeSpawnResults(results);
      spawn := spawn.(completed := completed, failed := failed, cancelled := cancelled);
      if spawn.completed + spawn.failed + spawn.cancelled >= spawn.expected {
        spawn := spawn.(status := Closed);
      } else if spawn.status == NoStatus {
        spawn := spawn.(status := Waiting);
      }
      if op.fault == AtSaveGroup {
        return;
      }
      group := spawn;
      if spawn.status != Closed {
        return;
      }
      var items := AggregateFor(spawn, results, op.citationItems);
      if items.Err? {
        return;
      }
      if spawn.submittedAt.None? {
        if op.fault == AtMarkSubmitted {
          return;
        }
        spawn := spawn.(submittedAt := Some(op.now), submittedBy := op.command);
        group := spawn;
      }
      Resume(Recovered, op.command, items.value, op.fault);
    }
  }

  // ---------------------------------------------------------------------
  // Counting
  // ---------------------------------------------------------------------

  ghost function With(rows: map<int, Row>, status: string): set<int> {
    set c | c in rows && rows[c].Reported? && rows[c].payload.status == status
  }

  lemma {:induction false} CountCons(r: ChildResult, results: seq<ChildResult>, status: string)
    ensures CountOf([r] + results, status) == CountOf(results, status) + (if r.status == status then 1 else 0)
  {
    if results == [] {
      assert [r] + results == [r] && [r][..0] == [];
    } else {
      var init := results[..|results| - 1];
      CountCons(r, init, status);
      assert ([r] + results)[..|results|] == [r] + init;
    }
  }

  lemma OrderStartsWith(rows: map<int, Row>, keys: set<int>) returns (m: int)
    requires keys <= ReportedIn(rows) && keys != {}
    ensures m in keys && Order(rows, keys) == [m] + Order(rows, keys - {m})
  {
    EarliestExists(rows, keys);
    m := Order(rows, keys)[0];
  }

  lemma TakeOut(keys: set<int>, within: set<int>, m: int)
    requires m in keys
    ensures |keys * within| == |(keys - {m}) * within| + (if m in within then 1 else 0)
  {
    if m in within {
      assert keys * within == (keys - {m}) * within + {m};
    } else {
      assert keys * within == (keys - {m}) * within;
    }
  }

  lemma ResultsCons(documents: map<int, int>, rows: map<int, Row>, m: int, order: seq<int>)
    requires m in ReportedIn(rows) && forall i :: 0 <= i < |order| ==> order[i] in ReportedIn(rows)
    ensures ResultsOf(documents, rows, [m] + order) == [ResultOf(documents, m, rows[m])] + ResultsOf(documents, rows, order)
  {
  }

  lemma {:induction false} CountOverOrder(documents: map<int, int>, rows: map<int, Row>, keys: set<int>, status: string)
    requires keys <= ReportedIn(rows)
    requires forall i :: 0 <= i < |Order(rows, keys)| ==> Order(rows, keys)[i] in ReportedIn(rows)
    ensures CountOf(ResultsOf(documents, rows, Order(rows, keys)), status) == |keys * With(rows, status)|
    decreases keys
  {
    if keys == {} {
      assert keys * With(rows, status) == {};
    } else {
      var m := OrderStartsWith(rows, keys);
      var rest := keys - {m};
      OrderListsKeys(rows, rest);
      CountOverOrder(documents, rows, rest, status);
      TakeOut(keys, With(rows, status), m);
      ResultsCons(documents, rows, m, Order(rows, rest));
      CountCons(ResultOf(documents, m, rows[m]), ResultsOf(documents, rows, Order(rows, rest)), status);
    }
  }

  // Results are listed in the order they were recorded, ties by child id.
  lemma {:induction false} ListedInOrder(rows: map<int, Row>, keys: set<int>, i: nat, j: nat)
    requires keys <= ReportedIn(rows) && i < j < |Order(rows, keys)|
    ensures var order := Order(rows, keys);
      && order[i] in keys && order[j] in keys && order[i] != order[j]
      && (rows[order[i]].updatedAt < rows[order[j]].updatedAt
          || (rows[order[i]].updatedAt == rows[order[j]].updatedAt && order[i] < order[j]))
    decreases i
  {
    OrderListsKeys(rows, keys);
    EarliestExists(rows, keys);
    var m := Order(rows, keys)[0];
    OrderListsKeys(rows, keys - {m});
    if i > 0 {
      ListedInOrder(rows, keys - {m}, i - 1, j - 1);
    }
  }

  // The number of listed results of a status is the number of children that
  // reported it.
  lemma CountIsTally(documents: map<int, int>, rows: map<int, Row>, status: string)
    ensures CountOf(Listing(documents, rows), status) == |With(rows, status)|
  {
    OrderListsKeys(rows, ReportedIn(rows));
    CountOverOrder(documents, rows, ReportedIn(rows), status);
    assert ReportedIn(rows) * With(rows, status) == With(rows, status);
  }

  ghost predicate ValidRows(rows: map<int, Row>) {
    forall c :: c in rows && rows[c].Reported? ==> rows[c].payload.status in {"completed", "failed", "cancelled"}
  }

  ghost predicate AllReported(rows: map<int, Row>) {
    forall c :: c in rows ==> rows[c].Reported?
  }

  lemma StatusesPartition(rows: map<int, Row>)
    requires ValidRows(rows)
    ensures With(rows, "completed") !! With(rows, "failed") !! With(rows, "cancelled")
    ensures ReportedIn(rows) == With(rows, "completed") + With(rows, "failed") + With(rows, "cancelled")
  {
    assert "completed" != "failed" && "failed" != "cancelled";
    assert "completed"[1] != "cancelled"[1];
    forall k | k in ReportedIn(rows)
      ensures k in With(rows, "completed") + With(rows, "failed") + With(rows, "cancelled")
    {
      assert rows[k].payload.status in {"completed", "failed", "cancelled"};
    }
  }

  lemma EveryKeyReported(rows: map<int, Row>)
    ensures AllReported(rows) <==> ReportedIn(rows) == rows.Keys
  {
    if ReportedIn(rows) == rows.Keys {
      forall c | c in rows
        ensures rows[c].Reported?
      {
        assert c in rows.Keys;
        assert c in ReportedIn(rows);
      }
    }
    if AllReported(rows) {
      assert forall c :: c in rows.Keys ==> c in ReportedIn(rows);
      assert ReportedIn(rows) == rows.Keys;
    }
  }

  lemma DisjointSize(a: set<int>, b: set<int>)
    requires a !! b
    ensures |a + b| == |a| + |b|
  {
  }

  lemma SubsetSize(a: set<int>, b: set<int>)
    requires a <= b
    ensures |a| <= |b| && (|a| == |b| ==> a == b)
  {
    assert b == a + (b - a);
    if |a| == |b| {
      assert b - a == {};
    }
  }

  lemma TallyAddsUp(rows: map<int, Row>)
    requires ValidRows(rows)
    ensures |With(rows, "completed")| + |With(rows, "failed")| + |With(rows, "cancelled")| == |ReportedIn(rows)|
    ensures |ReportedIn(rows)| <= |rows.Keys|
    ensures |ReportedIn(rows)| == |rows.Keys| <==> AllReported(rows)
  {
    var c, f, x := With(rows, "completed"), With(rows, "failed"), With(rows, "cancelled");
    StatusesPartition(rows);
    DisjointSize(c, f);
    DisjointSize(c + f, x);
    SubsetSize(ReportedIn(rows), rows.Keys);
    EveryKeyReported(rows);
  }

  // ---------------------------------------------------------------------
  // What every step keeps
  // ---------------------------------------------------------------------

  // Results come from the group's own children, with a terminal status.
  ghost predicate OwnResult(s: State, op: Op) {
    op.Deliver? ==> op.child in s.rows && op.payload.status in {"completed", "failed", "cancelled"}
  }

  ghost predicate CountsExact(s: State) {
    && s.group.completed == |With(s.rows, "completed")|
    && s.group.failed == |With(s.rows, "failed")|
    && s.group.cancelled == |With(s.rows, "cancelled")|
  }

  ghost predicate CountsBounded(s: State) {
    && 0 <= s.group.completed <= |With(s.rows, "completed")|
    && 0 <= s.group.failed <= |With(s.rows, "failed")|
    && 0 <= s.group.cancelled <= |With(s.rows, "cancelled")|
  }

  // The group's children are fixed, its counts never exceed what was reported,
  // and it is closed or submitted only when every child has reported.
  ghost predicate Counted(s: State) {
    && |s.rows.Keys| == s.group.expected && ValidRows(s.rows)
    && CountsBounded(s)
    && (s.group.status == Closed ==> AllReported(s.rows))
    && (s.group.submittedAt.Some? ==> s.group.status == Closed && CountsExact(s))
  }

  // Everything sent was sent on a submitted barrier, carries the aggregate of
  // the recorded results, and at most once by the delivery that closed it.
  ghost predicate SentFits(json: Json<QueryCall>, s: State) {
    && (s.sent != [] ==> s.group.submittedAt.Some?)
    && (forall i :: 0 <= i < |s.sent| && !s.group.citations ==> Ok(s.sent[i].items) == Items(json, s.group, s.rows, Err("")))
    && (forall i :: 0 <= i < |s.sent| && s.sent[i].source == Direct ==> i == 0 && s.sent[i].command == s.group.submittedBy)
  }

  ghost predicate Inv(json: Json<QueryCall>, s: State) {
    Counted(s) && SentFits(json, s)
  }

  // What no later step takes back.
  ghost predicate Keeps(before: State, after: State) {
    && after.rows.Keys == before.rows.Keys
    && (forall c :: c in before.rows && before.rows[c].Reported? ==> after.rows[c] == before.rows[c])
    && after.group.id == before.group.id && after.group.expected == before.group.expected
    && after.group.parentCallId == before.group.parentCallId
    && after.group.citations == before.group.citations && after.group.documents == before.group.documents
    && before.group.completed <= after.group.completed && before.group.failed <= after.group.failed
    && before.group.cancelled <= after.group.cancelled
    && (before.group.status == Closed ==> after.group.status == Closed)
    && (before.group.submittedAt.Some? ==>
          after.group.submittedAt == before.group.submittedAt && after.group.submittedBy == before.group.submittedBy)
    && before.sent <= after.sent
  }

  lemma RecountFacts(g: Group, rows: map<int, Row>)
    requires ValidRows(rows) && |rows.Keys| == g.expected
    ensures var n := Recount(g, Listing(g.documents, rows));
      && n.completed == |With(rows, "completed")| && n.failed == |With(rows, "failed")| && n.cancelled == |With(rows, "cancelled")|
      && (n.completed + n.failed + n.cancelled >= n.expected <==> AllReported(rows))
      && (n.status == Closed <==> AllReported(rows) || g.status == Closed)
  {
    CountIsTally(g.documents, rows, "completed");
    CountIsTally(g.documents, rows, "failed");
    CountIsTally(g.documents, rows, "cancelled");
    TallyAddsUp(rows);
  }

  lemma TallyGrows(rows: map<int, Row>, grown: map<int, Row>, status: string)
    requires forall c :: c in rows && rows[c].Reported? ==> c in grown && grown[c] == rows[c]
    ensures |With(rows, status)| <= |With(grown, status)|
  {
    forall c | c in With(rows, status)
      ensures c in With(grown, status)
    {
      assert c in rows && rows[c].Reported?;
    }
    SubsetSize(With(rows, status), With(grown, status));
  }

  lemma AllTalliesGrow(rows: map<int, Row>, grown: map<int, Row>)
    requires forall c :: c in rows && rows[c].Reported? ==> c in grown && grown[c] == rows[c]
    ensures |With(rows, "completed")| <= |With(grown, "completed")|
    ensures |With(rows, "failed")| <= |With(grown, "failed")|
    ensures |With(rows, "cancelled")| <= |With(grown, "cancelled")|
  {
    TallyGrows(rows, grown, "completed");
    TallyGrows(rows, grown, "failed");
    TallyGrows(rows, grown, "cancelled");
  }

  lemma UpsertKeeps(s: State, op: Op)
    requires op.Deliver? && OwnResult(s, op) && Counted(s)
    ensures var s1 := s.(rows := Upsert(s.rows, op.child, op.payload, op.now));
      && s1.rows.Keys == s.rows.Keys && Counted(s1)
      && (AllReported(s.rows) ==> s1 == s)
      && (forall c :: c in s.rows && s.rows[c].Reported? ==> s1.rows[c] == s.rows[c])
  {
    var grown := Upsert(s.rows, op.child, op.payload, op.now);
    assert grown.Keys == s.rows.Keys;
    AllTalliesGrow(s.rows, grown);
  }

  lemma KeepsCompose(a: State, b: State, c: State)
    requires Keeps(a, b) && Keeps(b, c)
    ensures Keeps(a, c)
  {
    forall k | k in a.rows && a.rows[k].Reported?
      ensures c.rows[k] == a.rows[k]
    {
      assert k in a.rows.Keys && b.rows[k] == a.rows[k];
    }
  }

  // Saving a recount.
  lemma RecountKeepsInv(json: Json<QueryCall>, s: State)
    requires Inv(json, s)
    ensures var s1 := s.(group := Recount(s.group, Listing(s.group.documents, s.rows)));
      Inv(json, s1) && Keeps(s, s1) && CountsExact(s1) && (s1.group.status == Closed <==> AllReported(s.rows))
  {
    RecountFacts(s.group, s.rows);
  }

  // Marking a closed barrier as submitted.
  lemma MarkKeepsInv(json: Json<QueryCall>, s: State, now: int, command: int)
    requires Inv(json, s) && s.group.submittedAt.None? && s.group.status == Closed && CountsExact(s)
    ensures var s1 := s.(group := s.group.(submittedAt := Some(now), submittedBy := command));
      Inv(json, s1) && Keeps(s, s1)
  {
  }

  lemma SubmitKeepsInv(json: Json<QueryCall>, s: State, source: Source, command: int, items: seq<CallOutput>, fault: Fault)
    requires Inv(json, s) && s.group.submittedAt.Some?
    requires !s.group.citations ==> Items(json, s.group, s.rows, Err("")) == Ok(items)
    requires source == Direct ==> s.sent == [] && command == s.group.submittedBy
    ensures Inv(json, Submit(s, source, command, items, fault)) && Keeps(s, Submit(s, source, command, items, fault))
  {
  }

  // Marking a closed barrier and resuming its parent.
  lemma ResumeKeepsInv(json: Json<QueryCall>, s: State, source: Source, now: int, command: int, items: seq<CallOutput>, fault: Fault)
    requires Inv(json, s) && s.group.submittedAt.None? && s.group.status == Closed && CountsExact(s)
    requires !s.group.citations ==> Items(json, s.group, s.rows, Err("")) == Ok(items)
    ensures var marked := s.(group := s.group.(submittedAt := Some(now), submittedBy := command));
      && Inv(json, marked) && Keeps(s, marked)
      && Inv(json, Submit(marked, source, command, items, fault)) && Keeps(s, Submit(marked, source, command, items, fault))
  {
    MarkKeepsInv(json, s, now, command);
    var marked := s.(group := s.group.(submittedAt := Some(now), submittedBy := command));
    SubmitKeepsInv(json, marked, source, command, items, fault);
    KeepsCompose(s, marked, Submit(marked, source, command, items, fault));
  }

  lemma AfterUpsertKeepsInv(json: Json<QueryCall>, s: State, op: Op)
    requires op.Deliver? && Inv(json, s)
    ensures Inv(json, AfterUpsert(json, s, op)) && Keeps(s, AfterUpsert(json, s, op))
  {
    RecountKeepsInv(json, s);
    RecountFacts(s.group, s.rows);
    var g := Recount(s.group, Listing(s.group.documents, s.rows));
    var items := Items(json, g, s.rows, op.citationItems);
    if g.submittedAt.None? && AllReported(s.rows) && items.Ok? && op.fault != AtSaveGroup {
      ResumeKeepsInv(json, s.(group := g), Direct, op.now, op.command, items.value, op.fault);
      KeepsCompose(s, s.(group := g), AfterUpsert(json, s, op));
    }
  }

  lemma DeliverKeepsInv(json: Json<QueryCall>, s: State, op: Op)
    requires op.Deliver? && Inv(json, s) && OwnResult(s, op)
    ensures Inv(json, Step(json, s, op)) && Keeps(s, Step(json, s, op))
  {
    if Accepts(s, op) && op.fault != AtUpsert {
      UpsertKeeps(s, op);
      var s1 := s.(rows := Upsert(s.rows, op.child, op.payload, op.now));
      assert s.group.submittedAt.Some? ==> s1 == s;
      assert Inv(json, s1) && Keeps(s, s1);
      AfterUpsertKeepsInv(json, s1, op);
      KeepsCompose(s, s1, AfterUpsert(json, s1, op));
    }
  }

  lemma RecoverKeepsInv(json: Json<QueryCall>, s: State, op: Op)
    requires op.Recover? && Inv(json, s)
    ensures Inv(json, RecoverBarrier(json, s, op)) && Keeps(s, RecoverBarrier(json, s, op))
  {
    RecountKeepsInv(json, s);
    var saved := s.(group := Recount(s.group, Listing(s.group.documents, s.rows)));
    var items := Items(json, saved.group, saved.rows, op.citationItems);
    var unmarked := saved.group.submittedAt.None? && op.fault == AtMarkSubmitted;
    if saved.group.status == Closed && items.Ok? && op.fault != AtSaveGroup && !unmarked {
      if saved.group.submittedAt.None? {
        ResumeKeepsInv(json, saved, Recovered, op.now, op.command, items.value, op.fault);
      } else {
        SubmitKeepsInv(json, saved, Recovered, op.command, items.value, op.fault);
      }
      KeepsCompose(s, saved, RecoverBarrier(json, s, op));
    }
  }

  lemma StepKeepsInv(json: Json<QueryCall>, s: State, op: Op)
    requires Inv(json, s) && OwnResult(s, op)
    ensures Inv(json, Step(json, s, op)) && Keeps(s, Step(json, s, op))
  {
    match op
    case Deliver(_, _, _, _, _, _, _) => DeliverKeepsInv(json, s, op);
    case Recover(_, force, _, _, _) =>
      var s0 := s.(parent := s.parent.(status := RecoverTarget(s.parent, force)));
      assert Inv(json, s0) && Keeps(s, s0);
      RecoverKeepsInv(json, s0, op);
      KeepsCompose(s, s0, RecoverBarrier(json, s0, op));
    case ParentMoves(_) =>
  }

  // ---------------------------------------------------------------------
  // Whole runs, with any failures
  // ---------------------------------------------------------------------

  // A group as it is opened: its children pending, nothing counted.
  ghost predicate Opened(s: State) {
    && (forall c :: c in s.rows ==> s.rows[c] == Pending)
    && |s.rows.Keys| == s.group.expected > 0
    && s.group.completed == 0 && s.group.failed == 0 && s.group.cancelled == 0
    && s.group.status in {NoStatus, Waiting} && s.group.submittedAt.None? && s.sent == []
  }

  ghost predicate OwnRun(s: State, ops: seq<Op>) {
    forall i :: 0 <= i < |ops| ==> OwnResult(s, ops[i])
  }

  // The rows after the first n operations.
  ghost function At(json: Json<QueryCall>, s: State, ops: seq<Op>, n: nat): State
    requires n <= |ops|
  {
    if n == 0 then s else Step(json, At(json, s, ops, n - 1), ops[n - 1])
  }

  ghost function States(json: Json<QueryCall>, s: State, ops: seq<Op>): (states: seq<State>)
    ensures |states| == |ops| + 1
  {
    seq(|ops| + 1, n requires 0 <= n <= |ops| => At(json, s, ops, n))
  }

  lemma StateAt(json: Json<QueryCall>, s: State, ops: seq<Op>, n: nat)
    requires n <= |ops|
    ensures States(json, s, ops)[n] == At(json, s, ops, n)
  {
  }

  lemma NothingReported(rows: map<int, Row>, status: string)
    requires forall c :: c in rows ==> rows[c] == Pending
    ensures With(rows, status) == {}
  {
    assert forall c :: c in rows ==> !rows[c].Reported?;
    assert forall c :: c !in With(rows, status);
  }

  // The group row says exactly what the children's rows say.
  ghost predicate Synced(s: State) {
    CountsExact(s) && (s.group.status == Closed <==> AllReported(s.rows))
  }

  lemma OpenedFits(json: Json<QueryCall>, s: State)
    requires Opened(s)
    ensures Inv(json, s) && Synced(s)
  {
    NothingReported(s.rows, "completed");
    NothingReported(s.rows, "failed");
    NothingReported(s.rows, "cancelled");
    assert AllReported(s.rows) ==> forall c :: c !in s.rows.Keys;
    assert (forall c :: c !in s.rows.Keys) ==> s.rows.Keys == {};
  }

  lemma OwnResultAt(json: Json<QueryCall>, s: State, ops: seq<Op>, k: nat)
    requires OwnRun(s, ops) && k < |ops| && At(json, s, ops, k).rows.Keys == s.rows.Keys
    ensures OwnResult(At(json, s, ops, k), ops[k])
  {
    assert OwnResult(s, ops[k]);
    assert ops[k].Deliver? ==> ops[k].child in At(json, s, ops, k).rows.Keys;
  }

  lemma {:induction false} RunInv(json: Json<QueryCall>, s: State, ops: seq<Op>, n: nat)
    requires Opened(s) && OwnRun(s, ops) && n <= |ops|
    ensures At(json, s, ops, n).rows.Keys == s.rows.Keys && Inv(json, At(json, s, ops, n))
    ensures n < |ops| ==> OwnResult(At(json, s, ops, n), ops[n])
  {
    if n == 0 {
      OpenedFits(json, s);
    } else {
      RunInv(json, s, ops, n - 1);
      StepKeepsInv(json, At(json, s, ops, n - 1), ops[n - 1]);
    }
    if n < |ops| {
      OwnResultAt(json, s, ops, n);
    }
  }

  lemma NextKeeps(json: Json<QueryCall>, s: State, ops: seq<Op>, n: nat)
    requires Opened(s) && OwnRun(s, ops) && n < |ops|
    ensures Keeps(At(json, s, ops, n), At(json, s, ops, n + 1))
  {
    RunInv(json, s, ops, n);
    StepKeepsInv(json, At(json, s, ops, n), ops[n]);
  }

  lemma {:induction false} ChainKeeps(states: seq<State>, i: nat, j: nat)
    requires forall k :: 0 < k < |states| ==> Keeps(states[k - 1], states[k])
    requires i <= j < |states|
    ensures Keeps(states[i], states[j])
    decreases j
  {
    if i < j {
      ChainKeeps(states, i, j - 1);
      KeepsCompose(states[i], states[j - 1], states[j]);
    }
  }

  lemma RunKeeps(json: Json<QueryCall>, s: State, ops: seq<Op>, i: nat, j: nat)
    requires Opened(s) && OwnRun(s, ops) && i <= j <= |ops|
    ensures Keeps(At(json, s, ops, i), At(json, s, ops, j))
  {
    var states := States(json, s, ops);
    forall k | 0 < k < |states|
      ensures Keeps(states[k - 1], states[k])
    {
      NextKeeps(json, s, ops, k - 1);
      StateAt(json, s, ops, k - 1);
      StateAt(json, s, ops, k);
    }
    ChainKeeps(states, i, j);
    StateAt(json, s, ops, i);
    StateAt(json, s, ops, j);
  }

  // Barrier counting, for every order, duplication and conflict of deliveries
  // and whatever calls fail: a child's first recorded result sticks, the
  // counts never fall and never exceed the reported children or the expected
  // number, and a group is closed only once every child has reported.
  lemma BarrierCounting(json: Json<QueryCall>, s: State, ops: seq<Op>, i: nat, j: nat, child: int)
    requires Opened(s) && OwnRun(s, ops) && i <= j <= |ops|
    ensures var before, after := At(json, s, ops, i), At(json, s, ops, j);
      && (child in before.rows && before.rows[child].Reported? ==> child in after.rows && after.rows[child] == before.rows[child])
      && before.group.completed <= after.group.completed && before.group.failed <= after.group.failed
      && before.group.cancelled <= after.group.cancelled
      && after.group.completed + after.group.failed + after.group.cancelled <= |ReportedIn(after.rows)| <= after.group.expected
      && (before.group.status == Closed ==> after.group.status == Closed)
      && (after.group.status == Closed ==> AllReported(after.rows))
  {
    RunKeeps(json, s, ops, i, j);
    RunInv(json, s, ops, j);
    var before, after := At(json, s, ops, i), At(json, s, ops, j);
    TallyAddsUp(after.rows);
    if child in before.rows && before.rows[child].Reported? {
      assert child in after.rows.Keys;
    }
  }

  // The aggregate is submitted at most once, only on a closed barrier, and
  // when and by which command never changes. The delivery that submitted it
  // resumes the parent at most once, and every resume, direct or recovered,
  // carries the same items: the results of a closed barrier are frozen.
  lemma SubmittedOnceAndAlike(json: Json<QueryCall>, s: State, ops: seq<Op>, i: nat, j: nat)
    requires Opened(s) && OwnRun(s, ops) && i <= j <= |ops|
    ensures var before, after := At(json, s, ops, i), At(json, s, ops, j);
      && (before.group.submittedAt.Some? ==>
            && after.group.submittedAt == before.group.submittedAt && after.group.submittedBy == before.group.submittedBy
            && before.group.status == Closed && AllReported(before.rows) && after.rows == before.rows)
      && before.sent <= after.sent
      && (after.sent != [] ==> after.group.submittedAt.Some?)
      && (forall a, b :: 0 <= a < b < |after.sent| && !s.group.citations ==> after.sent[a].items == after.sent[b].items)
      && (forall b :: 0 < b < |after.sent| ==> after.sent[b].source == Recovered)
      && (forall a :: 0 <= a < |after.sent| && after.sent[a].source == Direct ==> after.sent[a].command == after.group.submittedBy)
  {
    RunKeeps(json, s, ops, i, j);
    RunInv(json, s, ops, i);
    RunKeeps(json, s, ops, 0, j);
    RunInv(json, s, ops, j);
    var before, after := At(json, s, ops, i), At(json, s, ops, j);
    if before.group.submittedAt.Some? {
      assert after.rows.Keys == before.rows.Keys;
      assert forall c :: c in before.rows ==> after.rows[c] == before.rows[c];
    }
    forall a, b | 0 <= a < b < |after.sent| && !s.group.citations
      ensures after.sent[a].items == after.sent[b].items
    {
      assert Ok(after.sent[a].items) == Items(json, after.group, after.rows, Err("")) == Ok(after.sent[b].items);
    }
  }

  // ---------------------------------------------------------------------
  // Runs whose calls succeed
  // ---------------------------------------------------------------------

  // The call bindings recorded with a group give an aggregate exactly when
  // they decode to at least one call.
  lemma AggregatesIff(json: Json<QueryCall>, g: Group, rows: map<int, Row>, citationItems: Result<seq<CallOutput>, string>)
    requires !g.citations
    ensures Items(json, g, rows, citationItems).Ok?
       <==> Decode(json, g.parentCallId).Ok? && Decode(json, g.parentCallId).value != []
  {
  }

  ghost predicate Smooth(json: Json<QueryCall>, s: State, op: Op) {
    op.ParentMoves? || (op.fault == NoFault && Items(json, s.group, s.rows, op.citationItems).Ok?)
  }

  // The delivery of the last missing result closes the group exactly when the
  // results aggregate; otherwise the group row is left behind.
  lemma ClosesIffAggregates(json: Json<QueryCall>, s: State, op: Op)
    requires Inv(json, s) && Synced(s) && op.Deliver? && OwnResult(s, op) && Accepts(s, op) && op.fault == NoFault
    requires !AllReported(s.rows) && AllReported(Upsert(s.rows, op.child, op.payload, op.now))
    ensures Step(json, s, op).group.status == Closed
       <==> Items(json, s.group, Upsert(s.rows, op.child, op.payload, op.now), op.citationItems).Ok?
  {
    UpsertKeeps(s, op);
    RecountFacts(s.group, Upsert(s.rows, op.child, op.payload, op.now));
  }

  lemma AfterUpsertSyncs(json: Json<QueryCall>, s: State, op: Op)
    requires Counted(s) && op.Deliver? && op.fault == NoFault && Items(json, s.group, s.rows, op.citationItems).Ok?
    ensures Synced(AfterUpsert(json, s, op))
  {
    RecountFacts(s.group, s.rows);
  }

  lemma SmoothDeliverSyncs(json: Json<QueryCall>, s: State, op: Op)
    requires Inv(json, s) && op.Deliver? && OwnResult(s, op) && Smooth(json, s, op) && Accepts(s, op)
    ensures Synced(Step(json, s, op))
  {
    UpsertKeeps(s, op);
    var s1 := s.(rows := Upsert(s.rows, op.child, op.payload, op.now));
    if s.group.submittedAt.None? || s1 != s {
      if !s.group.citations {
        AggregatesIff(json, s.group, s.rows, op.citationItems);
        AggregatesIff(json, s.group, s1.rows, op.citationItems);
      }
      AfterUpsertSyncs(json, s1, op);
    }
  }

  lemma SmoothRecoverSyncs(json: Json<QueryCall>, s: State, op: Op)
    requires Inv(json, s) && op.Recover? && op.fault == NoFault
    ensures Synced(RecoverBarrier(json, s, op))
  {
    RecountFacts(s.group, s.rows);
  }

  // A delivery the parent accepts, and a recovery of its barrier, bring the
  // group row up to date; every other step leaves it as it was.
  lemma SmoothStepSyncs(json: Json<QueryCall>, s: State, op: Op)
    requires Inv(json, s) && OwnResult(s, op) && Smooth(json, s, op)
    ensures Synced(s) ==> Synced(Step(json, s, op))
    ensures op.Deliver? && Accepts(s, op) ==> Synced(Step(json, s, op))
    ensures op.Recover? && NeedsBarrierRecovery(s.parent) && s.parent.activeGroup == s.group.id ==> Synced(Step(json, s, op))
  {
    match op
    case Deliver(_, _, _, _, _, _, _) =>
      if Accepts(s, op) {
        SmoothDeliverSyncs(json, s, op);
      }
    case Recover(_, force, _, _, _) =>
      SmoothRecoverSyncs(json, s.(parent := s.parent.(status := RecoverTarget(s.parent, force))), op);
    case ParentMoves(_) =>
  }

  lemma SmoothNext(json: Json<QueryCall>, s: State, ops: seq<Op>, n: nat)
    requires Opened(s) && OwnRun(s, ops) && n < |ops| && Smooth(json, At(json, s, ops, n), ops[n])
    ensures Synced(At(json, s, ops, n)) ==> Synced(At(json, s, ops, n + 1))
  {
    RunInv(json, s, ops, n);
    SmoothStepSyncs(json, At(json, s, ops, n), ops[n]);
  }

  // The first n operations are smooth.
  ghost predicate SmoothRun(json: Json<QueryCall>, s: State, ops: seq<Op>, n: nat)
    requires n <= |ops|
  {
    forall k :: 0 <= k < n ==> Smooth(json, At(json, s, ops, k), ops[k])
  }

  lemma {:induction false} SyncedAlong(states: seq<State>, n: nat)
    requires n < |states| && Synced(states[0])
    requires forall k :: 0 < k <= n && Synced(states[k - 1]) ==> Synced(states[k])
    ensures Synced(states[n])
  {
    if n > 0 {
      SyncedAlong(states, n - 1);
    }
  }

  lemma SmoothRunsStaySynced(json: Json<QueryCall>, s: State, ops: seq<Op>, n: nat)
    requires Opened(s) && OwnRun(s, ops) && n <= |ops| && SmoothRun(json, s, ops, n)
    ensures Synced(At(json, s, ops, n))
  {
    var states := States(json, s, ops);
    OpenedFits(json, s);
    forall k | 0 < k <= n && Synced(states[k - 1])
      ensures Synced(states[k])
    {
      SmoothNext(json, s, ops, k - 1);
      StateAt(json, s, ops, k - 1);
      StateAt(json, s, ops, k);
    }
    StateAt(json, s, ops, 0);
    StateAt(json, s, ops, n);
    SyncedAlong(states, n);
  }

  lemma SyncedTally(s: State)
    requires Counted(s) && Synced(s)
    ensures s.group.completed + s.group.failed + s.group.cancelled == |ReportedIn(s.rows)|
  {
    TallyAddsUp(s.rows);
  }

  // While calls succeed, completed + failed + cancelled is the number of
  // children that have reported after every step, and the group is closed
  // exactly when all have.
  lemma SmoothRunsCount(json: Json<QueryCall>, s: State, ops: seq<Op>, n: nat)
    requires Opened(s) && OwnRun(s, ops) && n <= |ops| && SmoothRun(json, s, ops, n)
    ensures var now := At(json, s, ops, n);
      && now.group.completed + now.group.failed + now.group.cancelled == |ReportedIn(now.rows)|
      && (now.group.status == Closed <==> AllReported(now.rows))
  {
    SmoothRunsStaySynced(json, s, ops, n);
    RunInv(json, s, ops, n);
    SyncedTally(At(json, s, ops, n));
  }

  // ---------------------------------------------------------------------
  // What resumes the parent
  // ---------------------------------------------------------------------

  ghost function Unharmed(d: Op): Op
    requires d.Deliver?
  {
    Deliver(d.command, d.child, d.payload, d.warmup, d.now, NoFault, d.citationItems)
  }

  // The parent waits for the group, or names no group, and the result is not
  // that of a completed warmup.
  ghost predicate Awaited(s: State, d: Op)
    requires d.Deliver?
  {
    && s.parent.status == T.WaitingChildren && (s.parent.activeGroup <= 0 || s.parent.activeGroup == s.group.id)
    && (d.warmup ==> d.payload.status != "completed")
  }

  // Every child but perhaps the given one has reported.
  ghost predicate OthersReported(s: State, child: int) {
    forall c :: c in s.rows && c != child ==> s.rows[c].Reported?
  }

  // The group's results can be turned into answers.
  ghost predicate Answerable(json: Json<QueryCall>, s: State, citationItems: Result<seq<CallOutput>, string>) {
    if s.group.citations then citationItems.Ok?
    else Decode(json, s.group.parentCallId).Ok? && Decode(json, s.group.parentCallId).value != []
  }

  // The group closed and marked by a command; everything else about it is as
  // before.
  ghost predicate ClosedBy(before: Group, after: Group, command: int, now: int) {
    && after.status == Closed && after.submittedAt == Some(now) && after.submittedBy == command
    && after.completed + after.failed + after.cancelled == after.expected == before.expected
    && after.id == before.id && after.parentCallId == before.parentCallId && after.documents == before.documents
    && after.citations == before.citations
  }

  ghost predicate StoresFirst(before: map<int, Row>, after: map<int, Row>, d: Op)
    requires d.Deliver?
  {
    after == if d.child in before && before[d.child].Reported? then before else before[d.child := Reported(d.payload, d.now)]
  }

  lemma AwaitedIsAccepted(json: Json<QueryCall>, s: State, d: Op)
    requires Inv(json, s) && d.Deliver? && OwnResult(s, d) && Awaited(s, d) && d.fault != AtUpsert && s.group.submittedAt.None?
    ensures var rows := Upsert(s.rows, d.child, d.payload, d.now);
      && Step(json, s, d) == AfterUpsert(json, s.(rows := rows), d)
      && Counted(s.(rows := rows)) && StoresFirst(s.rows, rows, d) && rows.Keys == s.rows.Keys
      && (AllReported(rows) <==> OthersReported(s, d.child))
  {
    UpsertKeeps(s, d);
    var rows := Upsert(s.rows, d.child, d.payload, d.now);
    if OthersReported(s, d.child) {
      forall c | c in rows
        ensures rows[c].Reported?
      {
        assert c in s.rows.Keys;
      }
    } else {
      var c :| c in s.rows && c != d.child && !s.rows[c].Reported?;
      assert rows[c] == s.rows[c] && c in rows.Keys;
    }
  }

  lemma LastUpsertSubmits(json: Json<QueryCall>, s: State, d: Op)
    requires d.Deliver? && Counted(s) && AllReported(s.rows) && s.group.submittedAt.None? && d.fault != AtSaveGroup
    requires Answerable(json, s, d.citationItems)
    ensures var marked := Recount(s.group, Listing(s.group.documents, s.rows)).(submittedAt := Some(d.now), submittedBy := d.command);
      var items := Items(json, s.group, s.rows, d.citationItems);
      && ClosedBy(s.group, marked, d.command, d.now) && items.Ok?
      && AfterUpsert(json, s, d) == Submit(s.(group := marked), Direct, d.command, items.value, d.fault)
  {
    RecountFacts(s.group, s.rows);
    TallyAddsUp(s.rows);
  }

  lemma AfterLastUpsert(json: Json<QueryCall>, s: State, d: Op)
    requires d.Deliver? && Counted(s) && AllReported(s.rows) && s.group.submittedAt.None?
    requires Answerable(json, s, d.citationItems)
    ensures var after := AfterUpsert(json, s, d);
      && after.rows == s.rows
      && (d.fault == AtSaveGroup ==> after == s)
      && (d.fault != AtSaveGroup ==> ClosedBy(s.group, after.group, d.command, d.now))
      && after.parent == (if d.fault in {AtSaveGroup, AtClaim, AtSaveParent} then s.parent else s.parent.(status := T.Running))
      && (d.fault in {AtSaveGroup, AtClaim, AtSaveParent, AtSession, AtAppend} ==> after.sent == s.sent)
      && (d.fault !in {AtSaveGroup, AtClaim, AtSaveParent, AtSession, AtAppend} ==>
            && |after.sent| == |s.sent| + 1 && after.sent[..|s.sent|] == s.sent
            && after.sent[|s.sent|].source == Direct && after.sent[|s.sent|].command == d.command
            && Items(json, s.group, s.rows, d.citationItems) == Ok(after.sent[|s.sent|].items))
  {
    if d.fault != AtSaveGroup {
      LastUpsertSubmits(json, s, d);
    } else {
      RecountFacts(s.group, s.rows);
    }
  }

  // The delivery of the last missing result, whatever the children's statuses:
  // without a failure it stores the result, closes the group, marks it, sets
  // the parent running and resumes it exactly once, by the direct path. With
  // a failure it stops there, keeping what was written before.
  lemma LastDeliveryResumes(json: Json<QueryCall>, s: State, d: Op)
    requires Inv(json, s) && d.Deliver? && OwnResult(s, d) && Awaited(s, d) && OthersReported(s, d.child)
    requires s.group.submittedAt.None? && Answerable(json, s, d.citationItems) && d.fault != AtUpsert
    ensures var after := Step(json, s, d);
      && StoresFirst(s.rows, after.rows, d)
      && (d.fault == AtSaveGroup ==> after.group == s.group)
      && (d.fault != AtSaveGroup ==> ClosedBy(s.group, after.group, d.command, d.now))
      && after.parent == (if d.fault in {AtSaveGroup, AtClaim, AtSaveParent} then s.parent else s.parent.(status := T.Running))
      && (d.fault in {AtSaveGroup, AtClaim, AtSaveParent, AtSession, AtAppend} ==> after.sent == s.sent)
      && (d.fault !in {AtSaveGroup, AtClaim, AtSaveParent, AtSession, AtAppend} ==>
            && |after.sent| == |s.sent| + 1 && after.sent[..|s.sent|] == s.sent
            && after.sent[|s.sent|].source == Direct && after.sent[|s.sent|].command == d.command)
  {
    AwaitedIsAccepted(json, s, d);
    AfterLastUpsert(json, s.(rows := Upsert(s.rows, d.child, d.payload, d.now)), d);
  }

  // Every other delivery leaves parent and continuations alone: one that is
  // not awaited, or fails before it is stored, changes nothing; one that
  // leaves results missing stores the first result and counts; one to a
  // submitted group changes nothing.
  lemma OtherDeliveriesWait(json: Json<QueryCall>, s: State, d: Op)
    requires Inv(json, s) && d.Deliver? && OwnResult(s, d)
    requires !Awaited(s, d) || d.fault == AtUpsert || s.group.submittedAt.Some? || !OthersReported(s, d.child)
    ensures var after := Step(json, s, d);
      && after.parent == s.parent && after.sent == s.sent
      && (!Awaited(s, d) || d.fault == AtUpsert || s.group.submittedAt.Some? ==> after == s)
      && (Awaited(s, d) && d.fault != AtUpsert && s.group.submittedAt.None? ==>
            && StoresFirst(s.rows, after.rows, d)
            && after.group.submittedAt.None?
            && (d.fault == AtSaveGroup ==> after.group == s.group)
            && (d.fault != AtSaveGroup ==>
                  && after.group.status == (if s.group.status == NoStatus then Waiting else s.group.status)
                  && after.group.completed + after.group.failed + after.group.cancelled == |ReportedIn(after.rows)|))
  {
    if Awaited(s, d) && d.fault != AtUpsert {
      if s.group.submittedAt.Some? {
        UpsertKeeps(s, d);
      } else {
        AwaitedIsAccepted(json, s, d);
        var rows := Upsert(s.rows, d.child, d.payload, d.now);
        RecountFacts(s.group, rows);
        TallyAddsUp(rows);
      }
    }
  }

  // In every run: when every other child has reported and nothing was
  // submitted yet, a delivery the parent awaits and whose calls succeed
  // resumes it, once, closing and marking the group.
  lemma LastResultResumesTheParent(json: Json<QueryCall>, s: State, ops: seq<Op>, n: nat)
    requires Opened(s) && OwnRun(s, ops) && n < |ops| && ops[n].Deliver? && ops[n].fault == NoFault
    requires var before := At(json, s, ops, n);
      && Awaited(before, ops[n]) && OthersReported(before, ops[n].child) && before.group.submittedAt.None?
      && Answerable(json, before, ops[n].citationItems)
    ensures var before, after := At(json, s, ops, n), At(json, s, ops, n + 1);
      && before.sent == [] && |after.sent| == 1 && after.sent[0].source == Direct && after.sent[0].command == ops[n].command
      && after.parent == before.parent.(status := T.Running)
      && after.group.status == Closed && after.group.submittedAt == Some(ops[n].now) && after.group.submittedBy == ops[n].command
  {
    RunInv(json, s, ops, n);
    LastDeliveryResumes(json, At(json, s, ops, n), ops[n]);
  }

  // The thread names a group and has no response in flight.
  ghost predicate Stalled(p: Parent) {
    p.activeGroup > 0 && p.activeResponse == "" && p.status in {T.WaitingChildren, T.Running, T.Reconciling}
  }

  lemma FullGroupIsResumed(json: Json<QueryCall>, s: State, r: Op, items: seq<CallOutput>)
    requires AllReported(s.rows) && ValidRows(s.rows) && |s.rows.Keys| == s.group.expected
    requires r.Recover? && r.fault !in {AtSaveGroup, AtMarkSubmitted} && Items(json, s.group, s.rows, r.citationItems) == Ok(items)
    ensures var g := Recount(s.group, Listing(s.group.documents, s.rows));
      var marked := if g.submittedAt.None? then g.(submittedAt := Some(r.now), submittedBy := r.command) else g;
      g.status == Closed && RecoverBarrier(json, s, r) == Submit(s.(group := marked), Recovered, r.command, items, r.fault)
  {
    RecountFacts(s.group, s.rows);
  }

  // A successful recovery of a group whose children have all reported sends
  // the aggregate of their results, whether or not it was marked before.
  lemma RecoveryResends(json: Json<QueryCall>, s: State, r: Op, items: seq<CallOutput>)
    requires AllReported(s.rows) && ValidRows(s.rows) && |s.rows.Keys| == s.group.expected
    requires r.Recover? && r.fault == NoFault && Items(json, s.group, s.rows, r.citationItems) == Ok(items)
    requires Stalled(s.parent) && s.parent.activeGroup == s.group.id
    ensures var recovered := Step(json, s, r);
      && recovered.sent == s.sent + [Sent(Recovered, r.command, items)]
      && recovered.parent == s.parent.(status := T.Running) && recovered.rows == s.rows
      && recovered.group.status == Closed
      && recovered.group.submittedAt == (if s.group.submittedAt.None? then Some(r.now) else s.group.submittedAt)
      && recovered.group.submittedBy == (if s.group.submittedAt.None? then r.command else s.group.submittedBy)
  {
    FullGroupIsResumed(json, s.(parent := s.parent.(status := T.WaitingChildren)), r, items);
  }

  // A recovery that fails after marking the group sends nothing; the group
  // stays marked and the next recovery finds it so.
  lemma RecoveryFailsLate(json: Json<QueryCall>, s: State, r: Op, items: seq<CallOutput>)
    requires AllReported(s.rows) && ValidRows(s.rows) && |s.rows.Keys| == s.group.expected
    requires r.Recover? && r.fault in {AtSaveParent, AtSession, AtAppend} && Items(json, s.group, s.rows, r.citationItems) == Ok(items)
    requires Stalled(s.parent) && s.parent.activeGroup == s.group.id
    ensures var after := Step(json, s, r);
      && after.sent == s.sent && after.rows == s.rows && after.group.status == Closed
      && after.parent == s.parent.(status := if r.fault == AtSaveParent then T.WaitingChildren else T.Running)
      && after.group.submittedAt == (if s.group.submittedAt.None? then Some(r.now) else s.group.submittedAt)
      && after.group.submittedBy == (if s.group.submittedAt.None? then r.command else s.group.submittedBy)
  {
    FullGroupIsResumed(json, s.(parent := s.parent.(status := T.WaitingChildren)), r, items);
  }

  // A recovery that does not get hold of the thread, or cannot save its
  // status, changes nothing, and the parent's own moves nothing but the parent.
  lemma BarrierUntouched(json: Json<QueryCall>, s: State, op: Op)
    ensures op.Recover? && op.fault in {AtClaim, AtSaveTarget} ==> Step(json, s, op) == s
    ensures op.ParentMoves? ==> Step(json, s, op) == State(s.group, s.rows, op.parent, s.sent)
  {
  }

  // A recovery whose group row, or mark, cannot be saved sends nothing and
  // leaves the mark as it was.
  lemma RecoveryBreaksOff(json: Json<QueryCall>, s: State, r: Op)
    requires Inv(json, s) && r.Recover? && Stalled(s.parent) && s.parent.activeGroup == s.group.id
    requires r.fault == AtSaveGroup || (r.fault == AtMarkSubmitted && s.group.submittedAt.None?)
    ensures var after := Step(json, s, r);
      && after.sent == s.sent && after.rows == s.rows && after.parent == s.parent.(status := T.WaitingChildren)
      && after.group.submittedAt == s.group.submittedAt
      && (r.fault == AtSaveGroup ==> after.group == s.group)
  {
  }

  // A recovery that finds results still missing keeps the thread waiting and
  // sends nothing.
  lemma RecoveryKeepsWaiting(json: Json<QueryCall>, s: State, r: Op)
    requires Inv(json, s) && r.Recover? && r.fault !in {AtClaim, AtSaveTarget} && Stalled(s.parent) && s.parent.activeGroup == s.group.id
    requires exists c :: c in s.rows && !s.rows[c].Reported?
    ensures var after := Step(json, s, r);
      && after.sent == s.sent && after.rows == s.rows && after.group.submittedAt.None?
      && after.parent == s.parent.(status := T.WaitingChildren)
  {
    RecountFacts(s.group, s.rows);
  }

  // A recovery of a thread that is not stalled, or stalled on another group,
  // leaves the barrier alone. The thread is to be reconciled when it was
  // running or reconciling, has a response in flight or is forced to.
  lemma RecoveryOfAnotherThread(json: Json<QueryCall>, s: State, r: Op)
    requires r.Recover? && r.fault !in {AtClaim, AtSaveTarget} && s.group.id > 0
    requires !Stalled(s.parent) || s.parent.activeGroup != s.group.id
    ensures var after := Step(json, s, r);
      && after.sent == s.sent && after.rows == s.rows && after.group == s.group
      && after.parent == s.parent.(status :=
           if Stalled(s.parent) then T.WaitingChildren
           else if r.force || s.parent.status in {T.Running, T.Reconciling} || s.parent.activeResponse != "" then T.Reconciling
           else s.parent.status)
  {
  }

  // A delivery that recorded the last result but failed anywhere before the
  // parent was resumed loses nothing: the next successful recovery sends
  // exactly what the delivery would have sent.
  lemma FailedResumeIsRecovered(json: Json<QueryCall>, s: State, d: Op, r: Op)
    requires Inv(json, s) && !s.group.citations && d.Deliver? && OwnResult(s, d) && Awaited(s, d) && OthersReported(s, d.child)
    requires s.group.submittedAt.None? && Answerable(json, s, d.citationItems)
    requires s.parent.activeGroup == s.group.id > 0 && s.parent.activeResponse == ""
    requires d.fault in {AtSaveGroup, AtClaim, AtSaveParent, AtSession, AtAppend}
    requires r.Recover? && r.fault == NoFault
    ensures var full, lost := Step(json, s, Unharmed(d)), Step(json, s, d);
      var recovered := Step(json, lost, r);
      && lost.sent == s.sent && |full.sent| == |s.sent| + 1
      && recovered.sent == s.sent + [Sent(Recovered, r.command, full.sent[|s.sent|].items)]
      && recovered.parent.status == T.Running
      && recovered.group.submittedAt.Some? && recovered.group.status == Closed
  {
    AwaitedIsAccepted(json, s, d);
    AwaitedIsAccepted(json, s, Unharmed(d));
    var s1 := s.(rows := Upsert(s.rows, d.child, d.payload, d.now));
    AfterLastUpsert(json, s1, d);
    AfterLastUpsert(json, s1, Unharmed(d));
    var full, lost := Step(json, s, Unharmed(d)), Step(json, s, d);
    RecoveryResends(json, lost, r, full.sent[|s.sent|].items);
  }

  // ---------------------------------------------------------------------
  // First results
  // ---------------------------------------------------------------------

  // A delivery that reaches the store while its result is awaited.
  ghost predicate ReachesStore(s: State, op: Op, child: int) {
    op.Deliver? && op.child == child && Awaited(s, op) && op.fault != AtUpsert
  }

  ghost predicate Records(before: State, after: State, op: Op, child: int) {
    && child in before.rows && child in after.rows
    && after.rows[child] == (if ReachesStore(before, op, child) && !before.rows[child].Reported? then Reported(op.payload, op.now)
                             else before.rows[child])
  }

  lemma OnlyUpsertRecords(json: Json<QueryCall>, s: State, op: Op)
    ensures op.Deliver? ==> AfterUpsert(json, s, op).rows == s.rows
    ensures op.Recover? ==> Step(json, s, op).rows == s.rows
  {
  }

  lemma StepRecords(json: Json<QueryCall>, s: State, op: Op, child: int)
    requires Inv(json, s) && OwnResult(s, op) && child in s.rows
    ensures Records(s, Step(json, s, op), op, child)
  {
    OnlyUpsertRecords(json, s, op);
    if op.Deliver? {
      OnlyUpsertRecords(json, s.(rows := Upsert(s.rows, op.child, op.payload, op.now)), op);
    }
  }

  // Operation i of a run, which goes through the given states, is the first
  // that brings a result of the child.
  ghost predicate FirstResult(states: seq<State>, ops: seq<Op>, i: nat, child: int)
    requires |ops| < |states|
  {
    && i < |ops| && ReachesStore(states[i], ops[i], child)
    && forall j :: 0 <= j < i ==> !ReachesStore(states[j], ops[j], child)
  }

  lemma {:induction false} FirstRecordSticks(states: seq<State>, ops: seq<Op>, n: nat, child: int)
    requires |states| == |ops| + 1 && n <= |ops|
    requires forall k :: 0 <= k < |ops| ==> Records(states[k], states[k + 1], ops[k], child)
    requires child in states[0].rows && states[0].rows[child] == Pending
    ensures child in states[n].rows
    ensures states[n].rows[child].Reported? ==>
      exists i: nat :: FirstResult(states, ops, i, child) && i < n && states[n].rows[child] == Reported(ops[i].payload, ops[i].now)
    ensures !states[n].rows[child].Reported? ==>
      states[n].rows[child] == Pending && forall j :: 0 <= j < n ==> !ReachesStore(states[j], ops[j], child)
  {
    if n > 0 {
      FirstRecordSticks(states, ops, n - 1, child);
      assert Records(states[n - 1], states[n], ops[n - 1], child);
      if !states[n - 1].rows[child].Reported? && ReachesStore(states[n - 1], ops[n - 1], child) {
        assert FirstResult(states, ops, n - 1, child);
      }
    }
  }

  lemma NextRecords(json: Json<QueryCall>, s: State, ops: seq<Op>, k: nat, child: int)
    requires Opened(s) && OwnRun(s, ops) && k < |ops| && child in s.rows
    ensures Records(At(json, s, ops, k), At(json, s, ops, k + 1), ops[k], child)
  {
    RunInv(json, s, ops, k);
    assert child in At(json, s, ops, k).rows.Keys;
    StepRecords(json, At(json, s, ops, k), ops[k], child);
  }

  // In every run, a child that has reported has the payload and time of the
  // first awaited delivery of a result of it, and a child that has not has
  // had none.
  lemma FirstResultSticks(json: Json<QueryCall>, s: State, ops: seq<Op>, n: nat, child: int)
    requires Opened(s) && OwnRun(s, ops) && n <= |ops| && child in s.rows
    ensures var states := States(json, s, ops);
      && child in states[n].rows
      && (states[n].rows[child].Reported? ==>
            exists i: nat :: FirstResult(states, ops, i, child) && i < n && states[n].rows[child] == Reported(ops[i].payload, ops[i].now))
      && (!states[n].rows[child].Reported? ==>
            states[n].rows[child] == Pending && forall j :: 0 <= j < n ==> !ReachesStore(states[j], ops[j], child))
  {
    var states := States(json, s, ops);
    forall k | 0 <= k < |ops|
      ensures Records(states[k], states[k + 1], ops[k], child)
    {
      NextRecords(json, s, ops, k, child);
      StateAt(json, s, ops, k);
      StateAt(json, s, ops, k + 1);
    }
    StateAt(json, s, ops, 0);
    FirstRecordSticks(states, ops, n, child);
  }
}
