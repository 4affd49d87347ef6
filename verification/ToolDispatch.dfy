// What a response's event stream does to its thread: the function calls the
// model emits are collected as they arrive and, when the response completes,
// dispatched as one group, returned as page reads, or left to waiting_tool.

module ToolDispatch {
  import opened Wrappers
  import opened Text

  const MAX_CHILDREN_PER_SPAWN := 50
  const MAX_CITATIONS_PER_TURN := 20

  datatype Status =
    | New | Ready | Running | Reconciling | WaitingTool | WaitingChildren
    | Completed | Failed | Incomplete | Cancelled | Orphaned

  datatype ThreadMeta = ThreadMeta(
    parentThreadId: int, depth: int, oneShot: bool, reusableQueryChild: bool,
    status: Status, activeResponse: string, lastResponse: string, activeSpawnGroup: int)

  datatype SpawnChild = SpawnChild(input: string, prompt: string)

  datatype Arguments =
    | Malformed
    | SpawnArgs(mode: string, children: seq<SpawnChild>)
    | QueryArgs(documentId: int, task: string)
    | PageArgs(documentId: int, pageNumber: int)
    | CitationArgs(documentId: int, pages: seq<int>, instruction: string, includeImages: bool)

  datatype Call = Call(callId: string, name: string, args: Arguments)

  // Unparsed stands for a function_call item whose fields do not decode.
  datatype Emitted = Parsed(call: Call) | Unparsed

  datatype Item = NoItem | OtherItem | FunctionCall(emitted: Emitted)

  datatype Event =
    | ResponseCreated(responseId: string)
    | ResponseInProgress(responseId: string)
    | OutputItemDone(item: Item)
    | OtherEvent
    | ResponseCompleted(responseId: string)
    | ResponseFailed(responseId: string)
    | ResponseIncomplete(responseId: string)
    | ErrorEvent
    // An event for which a write failed: the log, the live relay, the raw
    // response, the item or the thread row.
    | Unrecorded(event: Event)

  // ---------------------------------------------------------------------
  // Decoding one call
  // ---------------------------------------------------------------------

  predicate KnownMode(mode: string) {
    TrimSpace(mode) == "" || TrimSpace(mode) == "cold_spawn" || TrimSpace(mode) == "warm_branch"
  }

  predicate DecodesSpawn(args: Arguments, depth: int) {
    && args.SpawnArgs? && 0 < |args.children| <= MAX_CHILDREN_PER_SPAWN && depth < 1 && KnownMode(args.mode)
    && forall i :: 0 <= i < |args.children| ==> args.children[i].input != "" || args.children[i].prompt != ""
  }

  predicate DecodesQuery(args: Arguments) {
    args.QueryArgs? && args.documentId > 0 && !Blank(args.task)
  }

  predicate DecodesPage(args: Arguments) {
    args.PageArgs? && args.documentId > 0 && args.pageNumber > 0
  }

  // One page, or two consecutive pages.
  predicate ValidPages(pages: seq<int>) {
    || (|pages| == 1 && pages[0] > 0)
    || (|pages| == 2 && pages[0] > 0 && pages[1] == pages[0] + 1)
  }

  predicate DecodesCitation(args: Arguments) {
    args.CitationArgs? && args.documentId > 0 && ValidPages(args.pages) && !Blank(args.instruction)
  }

  datatype Kind = Spawn | Query | Page | Citation | Unknown

  function KindOf(e: Emitted): Kind {
    if e.Unparsed? then Unknown
    else if e.call.name == "spawn_threads" then Spawn
    else if e.call.name == "query_document" then Query
    else if e.call.name == "read_document_page" then Page
    else if e.call.name == "store_citation" then Citation
    else Unknown
  }

  predicate Decodes(e: Emitted, depth: int) {
    match KindOf(e)
    case Spawn => DecodesSpawn(e.call.args, depth)
    case Query => DecodesQuery(e.call.args)
    case Page => DecodesPage(e.call.args)
    case Citation => DecodesCitation(e.call.args)
    case Unknown => false
  }

  // ---------------------------------------------------------------------
  // The stream loop
  // ---------------------------------------------------------------------

  datatype Dispatch = NoDispatch | SpawnGroup(call: Call) | QueryGroup(calls: seq<Call>) | CitationGroup(calls: seq<Call>)

  datatype End = Done(completed: bool) | ReceiveFailed | SpawnArgsRejected | DispatchFailed | RemoteError | WriteFailed

  // meta is the thread row as it is stored when the stream ends.
  datatype StreamResult = StreamResult(meta: ThreadMeta, dispatch: Dispatch, pages: seq<Call>, end: End)

  datatype Pending = Pending(
    spawn: Option<Call>, queries: seq<Call>, pages: seq<Call>, citations: seq<Call>, waiting: bool, rejected: bool)

  const NOTHING_PENDING := Pending(None, [], [], [], false, false)

  function Collect(p: Pending, e: Emitted, meta: ThreadMeta): Pending {
    match KindOf(e)
    case Spawn => if DecodesSpawn(e.call.args, meta.depth) then p.(spawn := Some(e.call)) else p.(rejected := true)
    case Query =>
      if |p.queries| >= MAX_CHILDREN_PER_SPAWN || !DecodesQuery(e.call.args) then p.(waiting := true)
      else p.(queries := p.queries + [e.call])
    case Page => if DecodesPage(e.call.args) then p.(pages := p.pages + [e.call]) else p.(waiting := true)
    case Citation =>
      if |p.citations| >= MAX_CITATIONS_PER_TURN || !DecodesCitation(e.call.args) then p.(waiting := true)
      else p.(citations := p.citations + [e.call])
    case Unknown => if meta.oneShot then p else p.(waiting := true)
  }

  function CollectAll(calls: seq<Emitted>, meta: ThreadMeta): Pending {
    if calls == [] then NOTHING_PENDING else Collect(CollectAll(calls[..|calls| - 1], meta), calls[|calls| - 1], meta)
  }

  function Bit(b: bool): nat {
    if b then 1 else 0
  }

  function PendingKinds(p: Pending): nat {
    Bit(p.spawn.Some?) + Bit(p.queries != []) + Bit(p.citations != []) + Bit(p.pages != [])
  }

  function SuccessStatus(meta: ThreadMeta): Status {
    if meta.parentThreadId <= 0 || meta.reusableQueryChild then Ready else Completed
  }

  // Which group the completed response starts, if any.
  function GroupOf(p: Pending): Dispatch {
    if p.waiting || PendingKinds(p) > 1 then NoDispatch
    else if p.spawn.Some? then SpawnGroup(p.spawn.value)
    else if p.queries != [] then QueryGroup(p.queries)
    else if p.citations != [] then CitationGroup(p.citations)
    else NoDispatch
  }

  function CompletedStatus(p: Pending, meta: ThreadMeta): Status {
    if GroupOf(p) != NoDispatch then WaitingChildren
    else if p.waiting || PendingKinds(p) > 1 then WaitingTool
    else if p.pages != [] then Running
    else SuccessStatus(meta)
  }

  // The page reads handed back for a follow-up turn.
  function PagesOf(p: Pending): seq<Call> {
    if p.waiting || PendingKinds(p) > 1 then [] else p.pages
  }

  function Last(previous: string, responseId: string): string {
    if responseId != "" then responseId else previous
  }

  // clearCompletedInvocationState: a thread that is done leaves its group.
  function Cleared(meta: ThreadMeta): ThreadMeta {
    if meta.activeSpawnGroup > 0 && meta.status in {Ready, Completed, Failed, Cancelled, Incomplete} then
      meta.(activeSpawnGroup := 0)
    else meta
  }

  // The function calls among the first n events.
  function CallsIn(events: seq<Event>, n: nat): seq<Emitted>
    requires n <= |events|
  {
    if n == 0 then []
    else
      var rest, event := CallsIn(events, n - 1), events[n - 1];
      if event.OutputItemDone? && event.item.FunctionCall? then rest + [event.item.emitted] else rest
  }

  predicate IsTerminal(event: Event) {
    event.ResponseCompleted? || event.ResponseFailed? || event.ResponseIncomplete?
  }

  predicate Stops(event: Event) {
    IsTerminal(event) || event.ErrorEvent? || event.Unrecorded?
  }

  // What one event does to the thread row while the response streams.
  function Streamed(meta: ThreadMeta, event: Event): ThreadMeta {
    if event.ResponseCreated? || event.ResponseInProgress? then
      meta.(activeResponse := Last(meta.activeResponse, event.responseId), status := Running)
    else meta
  }

  // The thread as the first n events leave it while the response streams.
  function Progress(meta0: ThreadMeta, events: seq<Event>, n: nat): ThreadMeta
    requires n <= |events|
  {
    if n == 0 then meta0 else Streamed(Progress(meta0, events, n - 1), events[n - 1])
  }

  function Gathered(p: Pending, event: Event, meta: ThreadMeta): Pending {
    if event.OutputItemDone? && event.item.FunctionCall? then Collect(p, event.item.emitted, meta) else p
  }

  ghost predicate SameThread(meta: ThreadMeta, meta0: ThreadMeta) {
    meta == meta0.(status := meta.status, activeResponse := meta.activeResponse)
  }

  // Neither a terminal event nor a rejected spawn_threads call among the
  // first n events.
  ghost predicate Undecided(meta0: ThreadMeta, events: seq<Event>, n: nat) {
    && n <= |events|
    && (forall i :: 0 <= i < n ==> !Stops(events[i]))
    && !CollectAll(CallsIn(events, n), meta0).rejected
  }

  lemma CollectsInThread(p: Pending, e: Emitted, meta0: ThreadMeta, meta: ThreadMeta)
    requires SameThread(meta, meta0)
    ensures Collect(p, e, meta0) == Collect(p, e, meta)
  {
  }

  lemma CollectNext(meta0: ThreadMeta, meta: ThreadMeta, events: seq<Event>, n: nat)
    requires n < |events| && SameThread(meta, meta0)
    ensures CollectAll(CallsIn(events, n + 1), meta0) == Gathered(CollectAll(CallsIn(events, n), meta0), events[n], meta)
  {
    var before, event := CallsIn(events, n), events[n];
    if event.OutputItemDone? && event.item.FunctionCall? {
      var calls := before + [event.item.emitted];
      assert calls[..|calls| - 1] == before;
      CollectsInThread(CollectAll(before, meta0), event.item.emitted, meta0, meta);
    }
  }

  // The loop's state after n events.
  ghost predicate Streaming(meta0: ThreadMeta, meta: ThreadMeta, p: Pending, events: seq<Event>, n: nat) {
    && Undecided(meta0, events, n) && p == CollectAll(CallsIn(events, n), meta0)
    && meta == Progress(meta0, events, n) && SameThread(meta, meta0)
  }

  lemma StreamsOn(meta0: ThreadMeta, meta: ThreadMeta, p: Pending, events: seq<Event>, n: nat)
    requires Streaming(meta0, meta, p, events, n) && n < |events| && !Stops(events[n])
    requires !Gathered(p, events[n], meta).rejected
    ensures Streaming(meta0, Streamed(meta, events[n]), Gathered(p, events[n], meta), events, n + 1)
  {
    CollectNext(meta0, meta, events, n);
  }

  function EndStatus(p: Pending, event: Event, meta: ThreadMeta): Status {
    if event.ResponseCompleted? then CompletedStatus(p, meta)
    else if event.ResponseFailed? then Failed else Incomplete
  }

  // How a response ends on its terminal event, given what was collected.
  ghost predicate Outcome(meta0: ThreadMeta, p: Pending, event: Event, started: Result<int, string>, r: StreamResult)
    requires IsTerminal(event)
  {
    && r.end == Done(event.ResponseCompleted?)
    && r.dispatch == (if event.ResponseCompleted? then GroupOf(p) else NoDispatch)
    && r.pages == (if event.ResponseCompleted? then PagesOf(p) else [])
    && (r.dispatch != NoDispatch ==> started.Ok?)
    && r.meta == Cleared(meta0.(
         lastResponse := Last(meta0.lastResponse, event.responseId),
         activeResponse := "",
         status := EndStatus(p, event, meta0),
         activeSpawnGroup := if r.dispatch != NoDispatch then started.value else meta0.activeSpawnGroup))
  }

  // The response ended at event n, its first terminal event.
  ghost predicate FinishedAt(meta0: ThreadMeta, events: seq<Event>, n: nat, started: Result<int, string>, r: StreamResult) {
    && n < |events| && IsTerminal(events[n])
    && (forall i :: 0 <= i < n ==> !Stops(events[i]))
    && !CollectAll(CallsIn(events, n), meta0).rejected
    && Outcome(meta0, CollectAll(CallsIn(events, n), meta0), events[n], started, r)
  }

  // The response was decided by event n, or the events ran out at n; r is how
  // it ended.
  ghost predicate EndsAt(meta0: ThreadMeta, events: seq<Event>, n: nat, started: Result<int, string>, r: StreamResult) {
    Undecided(meta0, events, n)
    && (!r.end.Done? ==> r.dispatch == NoDispatch && r.pages == [])
    && match r.end
       case ReceiveFailed => n == |events| && r.meta == Progress(meta0, events, n)
       case SpawnArgsRejected =>
         && n < |events| && !Stops(events[n]) && CollectAll(CallsIn(events, n + 1), meta0).rejected
         && r.meta == Progress(meta0, events, n)
       case RemoteError =>
         n < |events| && events[n].ErrorEvent? && r.meta == meta0.(activeResponse := "", status := Failed)
       case WriteFailed => n < |events| && events[n].Unrecorded? && r.meta == Progress(meta0, events, n)
       case DispatchFailed =>
         && n < |events| && events[n].ResponseCompleted? && started.Err?
         && GroupOf(CollectAll(CallsIn(events, n), meta0)) != NoDispatch
         && r.meta == Progress(meta0, events, n)
       case Done(_) => FinishedAt(meta0, events, n, started, r)
  }

  // A terminal event either fails to start its group or ends the response.
  ghost predicate FinishesAs(meta0: ThreadMeta, p: Pending, event: Event, started: Result<int, string>, r: StreamResult)
    requires IsTerminal(event)
  {
    if event.ResponseCompleted? && GroupOf(p) != NoDispatch && started.Err? then
      && r.end == DispatchFailed && r.dispatch == NoDispatch && r.pages == []
      && r.meta == meta0
    else Outcome(meta0, p, event, started, r)
  }

  lemma EndsUnfinished(meta0: ThreadMeta, events: seq<Event>, started: Result<int, string>, r: StreamResult)
    requires Undecided(meta0, events, |events|)
    requires r == StreamResult(Progress(meta0, events, |events|), NoDispatch, [], ReceiveFailed)
    ensures EndsAt(meta0, events, |events|, started, r)
  {
  }

  lemma EndsRejected(meta0: ThreadMeta, events: seq<Event>, n: nat, started: Result<int, string>, r: StreamResult)
    requires Undecided(meta0, events, n) && n < |events| && !Stops(events[n])
    requires CollectAll(CallsIn(events, n + 1), meta0).rejected
    requires r == StreamResult(Progress(meta0, events, n), NoDispatch, [], SpawnArgsRejected)
    ensures EndsAt(meta0, events, n, started, r)
  {
  }

  // What Finish decided for the thread as it is now is decided for the thread
  // as it was loaded.
  lemma EndsAtStop(meta0: ThreadMeta, meta: ThreadMeta, events: seq<Event>, n: nat, started: Result<int, string>, r: StreamResult)
    requires SameThread(meta, meta0) && Undecided(meta0, events, n) && n < |events| && Stops(events[n])
    requires meta == Progress(meta0, events, n)
    requires var p := CollectAll(CallsIn(events, n), meta0);
      if events[n].ErrorEvent? then r == StreamResult(meta.(activeResponse := "", status := Failed), NoDispatch, [], RemoteError)
      else if events[n].Unrecorded? then r == StreamResult(meta, NoDispatch, [], WriteFailed)
      else FinishesAs(meta, p, events[n], started, r)
    ensures EndsAt(meta0, events, n, started, r)
  {
    var p := CollectAll(CallsIn(events, n), meta0);
    if r.end.Done? {
      assert EndStatus(p, events[n], meta) == EndStatus(p, events[n], meta0);
      assert Outcome(meta0, p, events[n], started, r);
      assert FinishedAt(meta0, events, n, started, r);
    }
  }

  // The terminal event: the response's outcome, the one dispatch decision,
  // and the clean-up of a thread that is done.
  method Finish(meta0: ThreadMeta, p: Pending, event: Event, started: Result<int, string>) returns (r: StreamResult)
    requires IsTerminal(event)
    ensures FinishesAs(meta0, p, event, started, r)
  {
    var meta := meta0.(lastResponse := Last(meta0.lastResponse, event.responseId), activeResponse := "");
    if !event.ResponseCompleted? {
      meta := meta.(status := if event.ResponseFailed? then Failed else Incomplete);
      return StreamResult(Cleared(meta), NoDispatch, [], Done(false));
    }
    var waiting := p.waiting;
    if PendingKinds(p) > 1 {
      waiting := true;
    }
    var dispatch := NoDispatch;
    if p.spawn.Some? && !waiting {
      dispatch := SpawnGroup(p.spawn.value);
    } else if |p.queries| > 0 && !waiting {
      dispatch := QueryGroup(p.queries);
    } else if |p.citations| > 0 && !waiting {
      dispatch := CitationGroup(p.citations);
    }
    if dispatch != NoDispatch {
      if started.Err? {
        return StreamResult(meta0, NoDispatch, [], DispatchFailed);
      }
      meta := meta.(activeSpawnGroup := started.value, status := WaitingChildren);
    } else if |p.pages| > 0 && !waiting {
      meta := meta.(status := Running);
    } else if waiting {
      meta := meta.(status := WaitingTool);
    } else {
      meta := meta.(status := SuccessStatus(meta));
    }
    if |p.pages| > 0 && p.spawn.None? && |p.queries| == 0 && |p.citations| == 0 && !waiting {
      return StreamResult(meta, NoDispatch, p.pages, Done(true));
    }
    return StreamResult(Cleared(meta), dispatch, [], Done(true));
  }

  // started is the answer of whichever group start the completed response
  // asks for: the group's id, or an error.
  method StreamUntilTerminal(meta0: ThreadMeta, events: seq<Event>, started: Result<int, string>) returns (r: StreamResult)
    ensures exists n :: EndsAt(meta0, events, n, started, r)
  {
    var meta := meta0;
    var p := NOTHING_PENDING;
    for n := 0 to |events|
      invariant Streaming(meta0, meta, p, events, n)
    {
      var event := events[n];
      if Stops(event) {
        if event.ErrorEvent? {
          r := StreamResult(meta.(activeResponse := "", status := Failed), NoDispatch, [], RemoteError);
        } else if event.Unrecorded? {
          r := StreamResult(meta, NoDispatch, [], WriteFailed);
        } else {
          r := Finish(meta, p, event, started);
        }
        EndsAtStop(meta0, meta, events, n, started, r);
        return;
      }
      ghost var before, pending := meta, p;
      if event.ResponseCreated? || event.ResponseInProgress? {
        meta := meta.(activeResponse := Last(meta.activeResponse, event.responseId), status := Running);
      } else if event.OutputItemDone? && event.item.FunctionCall? {
        p := Collect(p, event.item.emitted, meta);
        if p.rejected {
          r := StreamResult(meta, NoDispatch, [], SpawnArgsRejected);
          CollectNext(meta0, meta, events, n);
          EndsRejected(meta0, events, n, started, r);
          return;
        }
      }
      assert meta == Streamed(before, event) && p == Gathered(pending, event, before);
      StreamsOn(meta0, before, pending, events, n);
    }
    r := StreamResult(meta, NoDispatch, [], ReceiveFailed);
    EndsUnfinished(meta0, events, started, r);
  }

  ghost predicate DecidedBy(meta0: ThreadMeta, events: seq<Event>, n: nat) {
    Undecided(meta0, events, n) && (n < |events| ==> Stops(events[n]) || CollectAll(CallsIn(events, n + 1), meta0).rejected)
  }

  lemma RejectionStaysOn(events: seq<Event>, n: nat, meta: ThreadMeta)
    requires n < |events| && CollectAll(CallsIn(events, n), meta).rejected
    ensures CollectAll(CallsIn(events, n + 1), meta).rejected
  {
    CollectNext(meta, meta, events, n);
  }

  lemma {:induction false} RejectionStays(events: seq<Event>, m: nat, n: nat, meta: ThreadMeta)
    requires m <= n <= |events|
    ensures CollectAll(CallsIn(events, m), meta).rejected ==> CollectAll(CallsIn(events, n), meta).rejected
  {
    if m < n && CollectAll(CallsIn(events, m), meta).rejected {
      RejectionStays(events, m, n - 1, meta);
      RejectionStaysOn(events, n - 1, meta);
    }
  }

  lemma NothingAfterDecision(meta0: ThreadMeta, events: seq<Event>, m: nat, n: nat)
    requires DecidedBy(meta0, events, m) && Undecided(meta0, events, n)
    ensures n <= m
  {
    if m < n {
      RejectionStays(events, m + 1, n, meta0);
    }
  }

  lemma DecidedOnce(meta0: ThreadMeta, events: seq<Event>, m: nat, n: nat)
    requires DecidedBy(meta0, events, m) && DecidedBy(meta0, events, n)
    ensures m == n
  {
    NothingAfterDecision(meta0, events, m, n);
    NothingAfterDecision(meta0, events, n, m);
  }

  // One event decides a response and how it ends, so what is dispatched and
  // which page reads are returned is settled by the events alone.
  lemma EndsOneWay(meta0: ThreadMeta, events: seq<Event>, m: nat, n: nat, started: Result<int, string>, q: StreamResult, r: StreamResult)
    requires EndsAt(meta0, events, m, started, q) && EndsAt(meta0, events, n, started, r)
    ensures m == n && q == r
  {
    DecidedOnce(meta0, events, m, n);
  }

  ghost predicate SameIdentity(meta: ThreadMeta, meta0: ThreadMeta) {
    && meta.parentThreadId == meta0.parentThreadId && meta.depth == meta0.depth
    && meta.oneShot == meta0.oneShot && meta.reusableQueryChild == meta0.reusableQueryChild
  }

  lemma {:induction false} CollectsAlike(calls: seq<Emitted>, meta: ThreadMeta, other: ThreadMeta)
    requires SameIdentity(meta, other)
    ensures CollectAll(calls, meta) == CollectAll(calls, other)
  {
    if calls != [] {
      CollectsAlike(calls[..|calls| - 1], meta, other);
    }
  }

  lemma {:induction false} CollectedPagesDecode(calls: seq<Emitted>, meta: ThreadMeta)
    ensures forall i :: 0 <= i < |CollectAll(calls, meta).pages| ==> DecodesPage(CollectAll(calls, meta).pages[i].args)
  {
    if calls != [] {
      CollectedPagesDecode(calls[..|calls| - 1], meta);
    }
  }

  // ---------------------------------------------------------------------
  // No dropped call
  // ---------------------------------------------------------------------

  function OfKind(calls: seq<Emitted>, kind: Kind): seq<Call>
    requires kind != Unknown
  {
    if calls == [] then []
    else
      var rest, e := OfKind(calls[..|calls| - 1], kind), calls[|calls| - 1];
      if KindOf(e) == kind then rest + [e.call] else rest
  }

  ghost predicate SomeBadSpawn(calls: seq<Emitted>, meta: ThreadMeta) {
    exists i :: 0 <= i < |calls| && KindOf(calls[i]) == Spawn && !Decodes(calls[i], meta.depth)
  }

  ghost predicate SomeBadCall(calls: seq<Emitted>, meta: ThreadMeta) {
    exists i :: 0 <= i < |calls| && KindOf(calls[i]) != Spawn && !Decodes(calls[i], meta.depth)
  }

  // Something keeps the whole response from being dispatched.
  ghost predicate Undispatchable(calls: seq<Emitted>, meta: ThreadMeta) {
    || SomeBadCall(calls, meta)
    || |OfKind(calls, Query)| > MAX_CHILDREN_PER_SPAWN
    || |OfKind(calls, Citation)| > MAX_CITATIONS_PER_TURN
  }

  function LastSpawn(calls: seq<Emitted>): Option<Call> {
    var spawns := OfKind(calls, Spawn);
    if spawns == [] then None else Some(spawns[|spawns| - 1])
  }

  lemma SomeBadGrows(calls: seq<Emitted>, e: Emitted, meta: ThreadMeta)
    ensures SomeBadSpawn(calls + [e], meta) <==> SomeBadSpawn(calls, meta) || (KindOf(e) == Spawn && !Decodes(e, meta.depth))
    ensures SomeBadCall(calls + [e], meta) <==> SomeBadCall(calls, meta) || (KindOf(e) != Spawn && !Decodes(e, meta.depth))
  {
    var all := calls + [e];
    assert all[|calls|] == e;
    assert forall i :: 0 <= i < |calls| ==> all[i] == calls[i];
  }

  lemma RejectedOneMore(p: Pending, calls: seq<Emitted>, e: Emitted, meta: ThreadMeta)
    requires p.rejected <==> SomeBadSpawn(calls, meta)
    ensures Collect(p, e, meta).rejected <==> SomeBadSpawn(calls + [e], meta)
  {
    SomeBadGrows(calls, e, meta);
  }

  lemma {:induction false} RejectedIff(calls: seq<Emitted>, meta: ThreadMeta)
    ensures CollectAll(calls, meta).rejected <==> SomeBadSpawn(calls, meta)
  {
    if calls != [] {
      var init, e := calls[..|calls| - 1], calls[|calls| - 1];
      RejectedIff(init, meta);
      RejectedOneMore(CollectAll(init, meta), init, e, meta);
      assert calls == init + [e];
    }
  }

  // The last spawn_threads call wins.
  lemma {:induction false} LastSpawnWins(calls: seq<Emitted>, meta: ThreadMeta)
    requires !SomeBadSpawn(calls, meta)
    ensures CollectAll(calls, meta).spawn == LastSpawn(calls)
  {
    if calls != [] {
      var init, e := calls[..|calls| - 1], calls[|calls| - 1];
      assert calls == init + [e];
      SomeBadGrows(init, e, meta);
      LastSpawnWins(init, meta);
      RejectedIff(init, meta);
    }
  }

  ghost predicate Gathers(p: Pending, calls: seq<Emitted>) {
    p.queries == OfKind(calls, Query) && p.pages == OfKind(calls, Page) && p.citations == OfKind(calls, Citation)
  }

  // Pending calls are waiting exactly when something keeps the response from
  // being dispatched, and otherwise are every call of their kind.
  ghost predicate Tracks(p: Pending, calls: seq<Emitted>, meta: ThreadMeta) {
    && (p.waiting <==> Undispatchable(calls, meta))
    && (!Undispatchable(calls, meta) ==> Gathers(p, calls))
  }

  lemma TracksOneMore(p: Pending, calls: seq<Emitted>, e: Emitted, meta: ThreadMeta)
    requires !meta.oneShot && Tracks(p, calls, meta)
    ensures Tracks(Collect(p, e, meta), calls + [e], meta)
  {
    SomeBadGrows(calls, e, meta);
    assert (calls + [e])[..|calls|] == calls;
  }

  // On a thread that is not one-shot, what is pending is every call of its
  // kind, in order, unless the response cannot be dispatched at all.
  lemma {:induction false} WaitingIff(calls: seq<Emitted>, meta: ThreadMeta)
    requires !meta.oneShot
    ensures Tracks(CollectAll(calls, meta), calls, meta)
  {
    if calls != [] {
      var init, e := calls[..|calls| - 1], calls[|calls| - 1];
      WaitingIff(init, meta);
      TracksOneMore(CollectAll(init, meta), init, e, meta);
      assert calls == init + [e];
    }
  }

  lemma {:induction false} MemberOfKind(calls: seq<Emitted>, i: nat)
    requires i < |calls| && KindOf(calls[i]) != Unknown
    ensures OfKind(calls, KindOf(calls[i])) != []
    decreases |calls|
  {
    if i < |calls| - 1 {
      MemberOfKind(calls[..|calls| - 1], i);
    }
  }

  ghost predicate AllOf(calls: seq<Emitted>, kind: Kind) {
    forall i :: 0 <= i < |calls| ==> KindOf(calls[i]) == kind
  }

  // answered holds exactly the emitted calls, in order.
  ghost predicate Carries(answered: seq<Call>, calls: seq<Emitted>) {
    |answered| == |calls| && forall i :: 0 <= i < |calls| ==> calls[i] == Parsed(answered[i])
  }

  lemma {:induction false} AllOneKind(calls: seq<Emitted>, kind: Kind)
    requires kind != Unknown && AllOf(calls, kind)
    ensures Carries(OfKind(calls, kind), calls)
    ensures forall other :: other != Unknown && other != kind ==> OfKind(calls, other) == []
  {
    if calls != [] {
      AllOneKind(calls[..|calls| - 1], kind);
    }
  }

  function Answered(dispatch: Dispatch, pages: seq<Call>): seq<Call> {
    match dispatch
    case NoDispatch => pages
    case SpawnGroup(call) => [call]
    case QueryGroup(calls) => calls
    case CitationGroup(calls) => calls
  }

  // The emitted calls are one kind that can be dispatched together.
  ghost predicate Uniform(calls: seq<Emitted>, kind: Kind, depth: int) {
    && kind != Unknown && AllOf(calls, kind)
    && (forall i :: 0 <= i < |calls| ==> Decodes(calls[i], depth))
    && (kind == Query ==> |calls| <= MAX_CHILDREN_PER_SPAWN)
    && (kind == Citation ==> |calls| <= MAX_CITATIONS_PER_TURN)
  }

  // Calls all of one known kind, within the caps: what is dispatched carries
  // every one of them.
  lemma UniformOutcome(calls: seq<Emitted>, meta: ThreadMeta, kind: Kind)
    requires !meta.oneShot && !SomeBadSpawn(calls, meta) && calls != [] && Uniform(calls, kind, meta.depth)
    ensures var p := CollectAll(calls, meta);
      && p.queries == OfKind(calls, Query) && p.pages == OfKind(calls, Page) && p.citations == OfKind(calls, Citation)
      && Carries(OfKind(calls, kind), calls)
      && GroupOf(p) == (match kind
                        case Spawn => SpawnGroup(calls[|calls| - 1].call)
                        case Query => QueryGroup(OfKind(calls, Query))
                        case Citation => CitationGroup(OfKind(calls, Citation))
                        case _ => NoDispatch)
      && PagesOf(p) == (if kind == Page then OfKind(calls, Page) else [])
      && CompletedStatus(p, meta) == (if kind == Page then Running else WaitingChildren)
  {
    WaitingIff(calls, meta);
    RejectedIff(calls, meta);
    LastSpawnWins(calls, meta);
    AllOneKind(calls, kind);
  }

  // With one kind pending and nothing in the way, the calls are uniform.
  lemma OneKindPending(calls: seq<Emitted>, meta: ThreadMeta)
    requires calls != [] && !meta.oneShot && !SomeBadSpawn(calls, meta) && !Undispatchable(calls, meta)
    requires PendingKinds(CollectAll(calls, meta)) <= 1
    ensures Uniform(calls, KindOf(calls[0]), meta.depth)
  {
    WaitingIff(calls, meta);
    RejectedIff(calls, meta);
    LastSpawnWins(calls, meta);
    var kind := KindOf(calls[0]);
    assert Decodes(calls[0], meta.depth);
    MemberOfKind(calls, 0);
    forall i | 0 <= i < |calls|
      ensures KindOf(calls[i]) == kind && Decodes(calls[i], meta.depth)
    {
      assert Decodes(calls[i], meta.depth);
      MemberOfKind(calls, i);
    }
    AllOneKind(calls, kind);
  }

  // Which of the outcomes a completed response takes, by its calls alone.
  lemma CompletedOutcome(calls: seq<Emitted>, meta: ThreadMeta)
    requires !meta.oneShot && !SomeBadSpawn(calls, meta)
    ensures var p := CollectAll(calls, meta);
      && (calls == [] <==> CompletedStatus(p, meta) == SuccessStatus(meta))
      && (calls == [] ==> GroupOf(p) == NoDispatch && PagesOf(p) == [])
      && (calls != [] && (forall kind :: !Uniform(calls, kind, meta.depth)) ==>
            CompletedStatus(p, meta) == WaitingTool && GroupOf(p) == NoDispatch && PagesOf(p) == [])
  {
    var p := CollectAll(calls, meta);
    WaitingIff(calls, meta);
    RejectedIff(calls, meta);
    LastSpawnWins(calls, meta);
    if calls != [] {
      if kind: Kind :| Uniform(calls, kind, meta.depth) {
        UniformOutcome(calls, meta, kind);
      } else if !p.waiting && PendingKinds(p) <= 1 {
        OneKindPending(calls, meta);
      }
    }
  }

  lemma OutcomeFacts(meta0: ThreadMeta, p: Pending, event: Event, started: Result<int, string>, r: StreamResult)
    requires event.ResponseCompleted? && Outcome(meta0, p, event, started, r)
    ensures r.dispatch == GroupOf(p) && r.pages == PagesOf(p) && r.meta.status == CompletedStatus(p, meta0)
    ensures r.dispatch != NoDispatch ==> r.pages == [] && r.meta.status == WaitingChildren && started == Ok(r.meta.activeSpawnGroup)
  {
  }

  // Every call is answered, in order, or the thread waits for its tools with
  // nothing dispatched.
  ghost predicate NothingDropped(r: StreamResult, calls: seq<Emitted>) {
    (r.meta.status == WaitingTool && Answered(r.dispatch, r.pages) == []) || Carries(Answered(r.dispatch, r.pages), calls)
  }

  ghost predicate SeveralSpawns(calls: seq<Emitted>) {
    |calls| > 1 && AllOf(calls, Spawn)
  }

  lemma CollectedAnswersIff(calls: seq<Emitted>, meta: ThreadMeta)
    requires !meta.oneShot && !SomeBadSpawn(calls, meta)
    ensures var p := CollectAll(calls, meta);
      (CompletedStatus(p, meta) == WaitingTool && Answered(GroupOf(p), PagesOf(p)) == []) || Carries(Answered(GroupOf(p), PagesOf(p)), calls)
      <==> !SeveralSpawns(calls)
  {
    CompletedOutcome(calls, meta);
    if calls != [] {
      if kind: Kind :| Uniform(calls, kind, meta.depth) {
        UniformOutcome(calls, meta, kind);
        assert kind == KindOf(calls[0]);
      } else {
        assert AllOf(calls, Spawn) ==> Uniform(calls, Spawn, meta.depth);
      }
    }
  }

  // A response that was finished on a thread that is not one-shot drops no
  // call exactly when it is not several spawn_threads calls, of which the
  // last one wins. Groups respect their caps, and the thread is done only if
  // there was nothing to answer.
  lemma FinishedResponseAnswersIff(meta0: ThreadMeta, events: seq<Event>, n: nat, started: Result<int, string>, r: StreamResult)
    requires FinishedAt(meta0, events, n, started, r) && events[n].ResponseCompleted? && !meta0.oneShot
    ensures var calls := CallsIn(events, n);
      && (NothingDropped(r, calls) <==> !SeveralSpawns(calls))
      && (r.meta.status == Ready || r.meta.status == Completed <==> calls == [])
      && (r.dispatch.QueryGroup? ==> |r.dispatch.calls| <= 50)
      && (r.dispatch.CitationGroup? ==> |r.dispatch.calls| <= 20)
      && (r.dispatch != NoDispatch ==> r.pages == [] && r.meta.status == WaitingChildren && started == Ok(r.meta.activeSpawnGroup))
  {
    var calls := CallsIn(events, n);
    RejectedIff(calls, meta0);
    OutcomeFacts(meta0, CollectAll(calls, meta0), events[n], started, r);
    CollectedAnswersIff(calls, meta0);
    CompletedOutcome(calls, meta0);
    WaitingIff(calls, meta0);
  }

  // What the model sent, whether or not it could be recorded.
  function Underlying(event: Event): Event {
    if event.Unrecorded? then Underlying(event.event) else event
  }

  // The function calls the model emitted among the first n events, recorded
  // or not.
  function EmittedIn(events: seq<Event>, n: nat): seq<Emitted>
    requires n <= |events|
  {
    if n == 0 then []
    else
      var rest, event := EmittedIn(events, n - 1), Underlying(events[n - 1]);
      if event.OutputItemDone? && event.item.FunctionCall? then rest + [event.item.emitted] else rest
  }

  ghost predicate RunsOn(events: seq<Event>, n: nat)
    requires n <= |events|
  {
    forall i :: 0 <= i < n ==> !Stops(events[i])
  }

  lemma {:induction false} AllRecorded(events: seq<Event>, n: nat)
    requires n <= |events| && RunsOn(events, n)
    ensures EmittedIn(events, n) == CallsIn(events, n)
  {
    if n > 0 {
      AllRecorded(events, n - 1);
    }
  }

  // The response's terminal event says it completed, recorded or not.
  predicate SaysCompleted(event: Event) {
    Underlying(event).ResponseCompleted?
  }

  // The group a completed response asks for, if it asks for one, was started.
  ghost predicate GroupStarts(calls: seq<Emitted>, meta: ThreadMeta, started: Result<int, string>) {
    started.Ok? || GroupOf(CollectAll(calls, meta)) == NoDispatch
  }

  lemma {:induction false} ProgressStatus(meta0: ThreadMeta, events: seq<Event>, n: nat)
    requires n <= |events|
    ensures Progress(meta0, events, n).status in {meta0.status, Running}
  {
    if n > 0 {
      ProgressStatus(meta0, events, n - 1);
    }
  }

  // A rejected spawn_threads call ends the stream before the response does.
  lemma RejectionDrops(meta0: ThreadMeta, events: seq<Event>, n: nat, started: Result<int, string>, r: StreamResult, m: nat)
    requires EndsAt(meta0, events, n, started, r) && meta0.status != WaitingTool
    requires m < |events| && Stops(events[m]) && forall i :: 0 <= i < m ==> !Stops(events[i])
    requires SomeBadSpawn(CallsIn(events, m), meta0)
    ensures !NothingDropped(r, CallsIn(events, m))
  {
    RejectedIff(CallsIn(events, m), meta0);
    ProgressStatus(meta0, events, n);
    if n >= m {
      RejectionStays(events, m, n, meta0);
    }
  }

  lemma OutcomeStarts(meta0: ThreadMeta, p: Pending, event: Event, started: Result<int, string>, r: StreamResult)
    requires event.ResponseCompleted? && Outcome(meta0, p, event, started, r)
    ensures started.Ok? || GroupOf(p) == NoDispatch
  {
  }

  // A stream that ends on a failed write or a failed group start answers
  // nothing.
  lemma FailedEndAnswersNothing(meta0: ThreadMeta, events: seq<Event>, n: nat, started: Result<int, string>, r: StreamResult)
    requires EndsAt(meta0, events, n, started, r) && meta0.status != WaitingTool
    requires n < |events| && SaysCompleted(events[n]) && !r.end.Done? && !SomeBadSpawn(CallsIn(events, n), meta0)
    ensures var calls := CallsIn(events, n);
      && (NothingDropped(r, calls) <==> calls == [])
      && !(events[n].ResponseCompleted? && GroupStarts(calls, meta0, started))
  {
    ProgressStatus(meta0, events, n);
  }

  lemma DecidedAtTheEnd(meta0: ThreadMeta, events: seq<Event>, n: nat, started: Result<int, string>, r: StreamResult, m: nat)
    requires EndsAt(meta0, events, n, started, r)
    requires m < |events| && Stops(events[m]) && forall i :: 0 <= i < m ==> !Stops(events[i])
    requires !SomeBadSpawn(CallsIn(events, m), meta0)
    ensures m == n
  {
    RejectedIff(CallsIn(events, m), meta0);
    assert DecidedBy(meta0, events, m) && DecidedBy(meta0, events, n);
    DecidedOnce(meta0, events, m, n);
  }

  lemma AnswersAtTheEnd(meta0: ThreadMeta, events: seq<Event>, n: nat, started: Result<int, string>, r: StreamResult)
    requires EndsAt(meta0, events, n, started, r) && !meta0.oneShot && meta0.status != WaitingTool
    requires n < |events| && SaysCompleted(events[n]) && !SomeBadSpawn(CallsIn(events, n), meta0)
    ensures var calls := CallsIn(events, n);
      NothingDropped(r, calls)
      <==> calls == [] || (!SeveralSpawns(calls) && events[n].ResponseCompleted? && GroupStarts(calls, meta0, started))
  {
    if r.end.Done? {
      FinishedResponseAnswersIff(meta0, events, n, started, r);
      OutcomeStarts(meta0, CollectAll(CallsIn(events, n), meta0), events[n], started, r);
    } else {
      FailedEndAnswersNothing(meta0, events, n, started, r);
    }
  }

  // For streams that run on to their terminal event.
  lemma RunningStreamDropsNothingIff(meta0: ThreadMeta, events: seq<Event>, n: nat, started: Result<int, string>, r: StreamResult, m: nat)
    requires EndsAt(meta0, events, n, started, r) && !meta0.oneShot && meta0.status != WaitingTool
    requires m < |events| && SaysCompleted(events[m]) && RunsOn(events, m)
    ensures var calls := CallsIn(events, m);
      NothingDropped(r, calls)
      <==> calls == []
           || (!SomeBadSpawn(calls, meta0) && !SeveralSpawns(calls) && events[m].ResponseCompleted? && GroupStarts(calls, meta0, started))
  {
    if SomeBadSpawn(CallsIn(events, m), meta0) {
      RejectionDrops(meta0, events, n, started, r, m);
    } else {
      DecidedAtTheEnd(meta0, events, n, started, r, m);
      AnswersAtTheEnd(meta0, events, m, started, r);
    }
  }

  // A stream that stops before the response's terminal event answers nothing.
  lemma StoppedStreamAnswersNothing(
    meta0: ThreadMeta, events: seq<Event>, n: nat, started: Result<int, string>, r: StreamResult, m: nat, calls: seq<Emitted>)
    requires EndsAt(meta0, events, n, started, r) && meta0.status != WaitingTool
    requires m < |events| && !RunsOn(events, m) && forall i :: 0 <= i < m ==> !IsTerminal(Underlying(events[i]))
    ensures NothingDropped(r, calls) <==> calls == []
  {
    var i :| 0 <= i < m && Stops(events[i]);
    assert n <= i;
    assert !IsTerminal(Underlying(events[n]));
    ProgressStatus(meta0, events, n);
  }

  // No dropped call, over every way a stream can end. Let event m be the
  // response's terminal event, saying that it completed. Whatever the model
  // emitted before it on a running thread that is not one-shot is answered in
  // full and in order, or the thread waits for its tools, exactly when there
  // was nothing to answer or: no event before it stopped the stream, every
  // spawn_threads call decodes, the calls are not several of them, the
  // terminal event was recorded, and the group it asks for, if any, started.
  lemma NoDroppedCallIff(meta0: ThreadMeta, events: seq<Event>, n: nat, started: Result<int, string>, r: StreamResult, m: nat)
    requires EndsAt(meta0, events, n, started, r) && !meta0.oneShot && meta0.status != WaitingTool
    requires m < |events| && SaysCompleted(events[m]) && forall i :: 0 <= i < m ==> !IsTerminal(Underlying(events[i]))
    ensures var calls := EmittedIn(events, m);
      NothingDropped(r, calls)
      <==> calls == []
           || (RunsOn(events, m) && !SomeBadSpawn(calls, meta0) && !SeveralSpawns(calls)
               && events[m].ResponseCompleted? && GroupStarts(calls, meta0, started))
  {
    if RunsOn(events, m) {
      AllRecorded(events, m);
      RunningStreamDropsNothingIff(meta0, events, n, started, r, m);
    } else {
      StoppedStreamAnswersNothing(meta0, events, n, started, r, m, EmittedIn(events, m));
    }
  }

  // A one-shot thread's forced call is its terminal output: calls of no known
  // tool neither dispatch anything nor strand the thread in waiting_tool.
  lemma {:induction false} OneShotIgnoresUnknownCalls(calls: seq<Emitted>, meta: ThreadMeta)
    requires meta.oneShot && AllOf(calls, Unknown)
    ensures CollectAll(calls, meta) == NOTHING_PENDING
    ensures CompletedStatus(CollectAll(calls, meta), meta) == SuccessStatus(meta)
  {
    if calls != [] {
      OneShotIgnoresUnknownCalls(calls[..|calls| - 1], meta);
    }
  }

  // ---------------------------------------------------------------------
  // The thread a response leaves
  // ---------------------------------------------------------------------

  // What a finished response leaves on the thread row. Without calls a root
  // thread or a reusable query child is ready again and any other child has
  // completed; a failed response leaves failed, an incomplete one incomplete.
  // No response is active, the last one is the one that ended, and a thread
  // that is done leaves its group.
  lemma FinishedThread(meta0: ThreadMeta, events: seq<Event>, n: nat, started: Result<int, string>, r: StreamResult)
    requires EndsAt(meta0, events, n, started, r) && r.end.Done? && (events[n].ResponseCompleted? ==> CallsIn(events, n) == [])
    ensures var responseId := events[n].responseId;
      r.meta == meta0.(
        lastResponse := if responseId != "" then responseId else meta0.lastResponse,
        activeResponse := "",
        status := if events[n].ResponseFailed? then Failed
                  else if events[n].ResponseIncomplete? then Incomplete
                  else if meta0.parentThreadId <= 0 || meta0.reusableQueryChild then Ready
                  else Completed,
        activeSpawnGroup := if meta0.activeSpawnGroup > 0 then 0 else meta0.activeSpawnGroup)
    ensures r.dispatch == NoDispatch && r.pages == [] && r.end == Done(events[n].ResponseCompleted?)
  {
  }

  // A finished response that dispatched a group waits for it under the id it
  // was given; one that only read pages goes on running; one whose calls are
  // refused waits for its tools. The group of a thread that is not done stays.
  lemma BusyThread(meta0: ThreadMeta, events: seq<Event>, n: nat, started: Result<int, string>, r: StreamResult)
    requires EndsAt(meta0, events, n, started, r) && r.end == Done(true) && !meta0.oneShot && CallsIn(events, n) != []
    ensures var responseId := events[n].responseId;
      && r.meta == meta0.(
           lastResponse := if responseId != "" then responseId else meta0.lastResponse,
           activeResponse := "",
           status := r.meta.status,
           activeSpawnGroup := if r.dispatch != NoDispatch && started.Ok? then started.value else meta0.activeSpawnGroup)
      && r.meta.status == (if r.dispatch != NoDispatch then WaitingChildren else if r.pages != [] then Running else WaitingTool)
  {
    var calls := CallsIn(events, n);
    RejectedIff(calls, meta0);
    CompletedOutcome(calls, meta0);
    if kind: Kind :| Uniform(calls, kind, meta0.depth) {
      UniformOutcome(calls, meta0, kind);
    }
  }

  predicate Names(event: Event) {
    (event.ResponseCreated? || event.ResponseInProgress?) && event.responseId != ""
  }

  // While a response streams, announcing it marks the thread running, and the
  // last id it was announced under is the active response.
  lemma {:induction false} StreamingThread(meta0: ThreadMeta, events: seq<Event>, n: nat)
    requires n <= |events|
    ensures var meta := Progress(meta0, events, n);
      && meta == meta0.(status := meta.status, activeResponse := meta.activeResponse)
      && (meta.status == if exists i :: 0 <= i < n && (events[i].ResponseCreated? || events[i].ResponseInProgress?) then Running else meta0.status)
      && ((forall i :: 0 <= i < n ==> !Names(events[i])) ==> meta.activeResponse == meta0.activeResponse)
      && (forall i :: 0 <= i < n && Names(events[i]) && (forall j :: i < j < n ==> !Names(events[j])) ==>
            meta.activeResponse == events[i].responseId)
  {
    if n > 0 {
      StreamingThread(meta0, events, n - 1);
    }
  }

  // Which event decides a response, and how: the first terminal, error or
  // unrecorded one, or a rejected call; the end of the events if there is none.
  lemma DecidingEvent(meta0: ThreadMeta, events: seq<Event>, n: nat, started: Result<int, string>, r: StreamResult)
    requires EndsAt(meta0, events, n, started, r)
    ensures n <= |events| && forall i :: 0 <= i < n ==>
      events[i].ResponseCreated? || events[i].ResponseInProgress? || events[i].OutputItemDone? || events[i].OtherEvent?
    ensures n == |events| <==> r.end.ReceiveFailed?
    ensures n < |events| ==>
      match events[n]
      case ResponseCompleted(_) => r.end.Done? || (r.end.DispatchFailed? && started.Err?)
      case ResponseFailed(_) => r.end.Done?
      case ResponseIncomplete(_) => r.end.Done?
      case ErrorEvent => r.end.RemoteError? && r.meta == meta0.(activeResponse := "", status := Failed)
      case Unrecorded(_) => r.end.WriteFailed? && r.meta == Progress(meta0, events, n)
      case OutputItemDone(item) =>
        r.end.SpawnArgsRejected? && r.meta == Progress(meta0, events, n)
        && item.FunctionCall? && item.emitted.Parsed? && item.emitted.call.name == "spawn_threads"
        && !DecodesSpawn(item.emitted.call.args, meta0.depth)
      case _ => false
  {
    if r.end.SpawnArgsRejected? {
      CollectNext(meta0, meta0, events, n);
    }
  }

  lemma ToolNames(call: Call)
    ensures KindOf(Parsed(call)) == (match call.name
                                     case "spawn_threads" => Spawn
                                     case "query_document" => Query
                                     case "read_document_page" => Page
                                     case "store_citation" => Citation
                                     case _ => Unknown)
  {
  }

  // What may be dispatched, tool by tool: one to fifty children with an input
  // each below the root; a query, page read or citation of a real document
  // with all it needs.
  lemma DispatchableCalls(call: Call, depth: int)
    ensures call.name == "spawn_threads" ==>
      (Decodes(Parsed(call), depth)
       <==> && call.args.SpawnArgs? && 1 <= |call.args.children| <= 50 && depth <= 0
            && TrimSpace(call.args.mode) in {"", "cold_spawn", "warm_branch"}
            && forall i :: 0 <= i < |call.args.children| ==> call.args.children[i].input != "" || call.args.children[i].prompt != "")
    ensures call.name == "query_document" ==>
      (Decodes(Parsed(call), depth) <==> call.args.QueryArgs? && call.args.documentId >= 1 && TrimSpace(call.args.task) != "")
    ensures call.name == "read_document_page" ==>
      (Decodes(Parsed(call), depth) <==> call.args.PageArgs? && call.args.documentId >= 1 && call.args.pageNumber >= 1)
    ensures call.name == "store_citation" ==>
      (Decodes(Parsed(call), depth)
       <==> && call.args.CitationArgs? && call.args.documentId >= 1 && TrimSpace(call.args.instruction) != ""
            && (|call.args.pages| == 1 || (|call.args.pages| == 2 && call.args.pages[1] - call.args.pages[0] == 1))
            && call.args.pages[0] >= 1)
    ensures call.name !in {"spawn_threads", "query_document", "read_document_page", "store_citation"} ==> !Decodes(Parsed(call), depth)
  {
    ToolNames(call);
  }

  // ---------------------------------------------------------------------
  // Calls that are dropped
  // ---------------------------------------------------------------------

  const RUNNING_ROOT := ThreadMeta(0, 0, false, false, Running, "", "", 0)

  function CallEvent(call: Call): Event {
    OutputItemDone(FunctionCall(Parsed(call)))
  }

  lemma OneCallCollected(call: Call, end: Event)
    ensures CallsIn([CallEvent(call), end], 1) == [Parsed(call)]
    ensures CollectAll([Parsed(call)], RUNNING_ROOT) == Collect(NOTHING_PENDING, Parsed(call), RUNNING_ROOT)
  {
    assert CallsIn([CallEvent(call), end], 0) == [];
    assert [Parsed(call)][..0] == [];
  }

  // One more event, for any n.
  lemma NextEvent(meta0: ThreadMeta, events: seq<Event>, n: nat)
    requires n < |events|
    ensures var e := events[n];
      && EmittedIn(events, n + 1)
         == EmittedIn(events, n) + (if Underlying(e).OutputItemDone? && Underlying(e).item.FunctionCall? then [Underlying(e).item.emitted] else [])
      && CallsIn(events, n + 1) == CallsIn(events, n) + (if e.OutputItemDone? && e.item.FunctionCall? then [e.item.emitted] else [])
      && (e.OutputItemDone? ==> Progress(meta0, events, n + 1) == Progress(meta0, events, n))
  {
  }

  lemma QueryKind(call: Call)
    requires call.name == "query_document"
    ensures KindOf(Parsed(call)) == Query
  {
    assert |call.name| == 14;
  }

  lemma QueryIsNotRejected(p: Pending, e: Emitted, meta: ThreadMeta)
    requires KindOf(e) == Query
    ensures Collect(p, e, meta).rejected == p.rejected
  {
  }

  lemma EventsBeforeTheGap(call: Call, events: seq<Event>)
    requires |events| == 3 && events[0] == CallEvent(call) && events[1] == Unrecorded(OtherEvent)
    ensures CallsIn(events, 1) == [Parsed(call)] && EmittedIn(events, 2) == [Parsed(call)]
    ensures Progress(RUNNING_ROOT, events, 1) == RUNNING_ROOT
  {
    NextEvent(RUNNING_ROOT, events, 0);
    NextEvent(RUNNING_ROOT, events, 1);
  }

  // An event between the call and the end that cannot be recorded stops the
  // stream.
  lemma UnrecordedEventDropsTheCall(r: StreamResult)
    requires r == StreamResult(RUNNING_ROOT, NoDispatch, [], WriteFailed)
    ensures var call := Call("c", "query_document", QueryArgs(7, "q"));
      var events := [CallEvent(call), Unrecorded(OtherEvent), ResponseCompleted("r")];
      EndsAt(RUNNING_ROOT, events, 1, Ok(1), r) && !NothingDropped(r, EmittedIn(events, 2))
  {
    var call := Call("c", "query_document", QueryArgs(7, "q"));
    var events := [CallEvent(call), Unrecorded(OtherEvent), ResponseCompleted("r")];
    EventsBeforeTheGap(call, events);
    OneCallCollected(call, ResponseCompleted("r"));
    QueryKind(call);
    QueryIsNotRejected(NOTHING_PENDING, Parsed(call), RUNNING_ROOT);
    assert Undecided(RUNNING_ROOT, events, 1);
  }

  // A spawn_threads call that does not decode ends the stream at once.
  lemma RejectedSpawnIsDropped(r: StreamResult)
    requires r == StreamResult(RUNNING_ROOT, NoDispatch, [], SpawnArgsRejected)
    ensures var call := Call("c", "spawn_threads", Malformed);
      var events := [CallEvent(call), ResponseCompleted("r")];
      EndsAt(RUNNING_ROOT, events, 0, Ok(1), r) && !NothingDropped(r, CallsIn(events, 1))
  {
    var call := Call("c", "spawn_threads", Malformed);
    OneCallCollected(call, ResponseCompleted("r"));
  }

  lemma SpawnCollected(p: Pending, call: Call)
    requires call.name == "spawn_threads" && call.args == SpawnArgs("", [SpawnChild("x", "")])
    ensures Collect(p, Parsed(call), RUNNING_ROOT) == p.(spawn := Some(call))
  {
    assert KnownMode("");
  }

  lemma TwoCallsCollected(first: Call, second: Call, events: seq<Event>)
    requires |events| == 3 && events[0] == CallEvent(first) && events[1] == CallEvent(second)
    ensures CallsIn(events, 2) == [Parsed(first), Parsed(second)]
    ensures CollectAll(CallsIn(events, 2), RUNNING_ROOT)
         == Collect(Collect(NOTHING_PENDING, Parsed(first), RUNNING_ROOT), Parsed(second), RUNNING_ROOT)
  {
    NextEvent(RUNNING_ROOT, events, 0);
    NextEvent(RUNNING_ROOT, events, 1);
    OneCallCollected(first, events[2]);
    var calls := [Parsed(first), Parsed(second)];
    assert calls[..1] == [Parsed(first)] && CallsIn(events, 2) == calls;
  }

  lemma SpawnFinishes(meta0: ThreadMeta, events: seq<Event>, n: nat, call: Call, group: int, r: StreamResult)
    requires Undecided(meta0, events, n) && n < |events| && events[n].ResponseCompleted?
    requires CollectAll(CallsIn(events, n), meta0) == NOTHING_PENDING.(spawn := Some(call))
    requires r == StreamResult(
      meta0.(lastResponse := Last(meta0.lastResponse, events[n].responseId), activeResponse := "", status := WaitingChildren,
             activeSpawnGroup := group), SpawnGroup(call), [], Done(true))
    ensures EndsAt(meta0, events, n, Ok(group), r)
  {
  }

  // Of two spawn_threads calls only the last one is answered.
  lemma FirstSpawnIsDropped(first: Call, second: Call)
    requires first == Call("c1", "spawn_threads", SpawnArgs("", [SpawnChild("x", "")]))
    requires second == first.(callId := "c2")
    ensures var events := [CallEvent(first), CallEvent(second), ResponseCompleted("r")];
      var r := StreamResult(RUNNING_ROOT.(lastResponse := "r", status := WaitingChildren, activeSpawnGroup := 9),
                            SpawnGroup(second), [], Done(true));
      EndsAt(RUNNING_ROOT, events, 2, Ok(9), r) && !NothingDropped(r, CallsIn(events, 2))
  {
    var events := [CallEvent(first), CallEvent(second), ResponseCompleted("r")];
    var r := StreamResult(RUNNING_ROOT.(lastResponse := "r", status := WaitingChildren, activeSpawnGroup := 9),
                          SpawnGroup(second), [], Done(true));
    TwoCallsCollected(first, second, events);
    SpawnCollected(NOTHING_PENDING, first);
    SpawnCollected(NOTHING_PENDING.(spawn := Some(first)), second);
    SpawnFinishes(RUNNING_ROOT, events, 2, second, 9, r);
  }
}
