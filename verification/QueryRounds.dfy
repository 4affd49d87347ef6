// A round of query_document calls from end to end: the calls a response
// dispatched, the group started for them, the barrier its children report to,
// and the answers sent back.

module QueryRounds {
  import opened Wrappers
  import opened Text
  import opened DocQueryRound
  import B = ChildBarrier
  import T = ToolDispatch

  // ---------------------------------------------------------------------
  // From the response to the round
  // ---------------------------------------------------------------------

  function CallOf(call: T.Call): QueryCall
    requires call.args.QueryArgs?
  {
    QueryCall(call.callId, call.args.documentId, call.args.task)
  }

  function RoundCalls(calls: seq<T.Call>): seq<QueryCall>
    requires forall i :: 0 <= i < |calls| ==> calls[i].args.QueryArgs?
  {
    seq(|calls|, i requires 0 <= i < |calls| => CallOf(calls[i]))
  }

  predicate CleanIds(calls: seq<QueryCall>) {
    forall i :: 0 <= i < |calls| ==> calls[i].callId != "" && Trimmed(calls[i].callId)
  }

  lemma {:induction false} NormalizeShrinks(calls: seq<QueryCall>)
    ensures |Normalize(calls)| <= |calls|
  {
    if calls != [] {
      NormalizeShrinks(calls[..|calls| - 1]);
    }
  }

  lemma {:induction false} CleanIdsAreKept(calls: seq<QueryCall>)
    requires CleanIds(calls) && forall i :: 0 <= i < |calls| ==> calls[i].documentId > 0
    ensures var kept := Normalize(calls);
      |kept| == |calls| && forall i :: 0 <= i < |calls| ==> kept[i].callId == calls[i].callId && kept[i].documentId == calls[i].documentId
  {
    if calls != [] {
      var init, call := calls[..|calls| - 1], calls[|calls| - 1];
      CleanIdsAreKept(init);
      TrimSpaceTrims(call.callId);
      assert Normalize(calls) == Normalize(init) + [QueryCall(call.callId, call.documentId, TrimSpace(call.task))];
    }
  }

  lemma {:induction false} KeptIdsAreClean(calls: seq<QueryCall>)
    requires Ids(Normalize(calls)) == Ids(calls)
    ensures CleanIds(calls)
  {
    if calls != [] {
      var init, call := calls[..|calls| - 1], calls[|calls| - 1];
      var kept, keptInit := Normalize(calls), Normalize(init);
      NormalizeShrinks(init);
      assert |Ids(kept)| == |Ids(calls)|;
      assert kept == keptInit + [kept[|init|]];
      assert Ids(calls)[|init|] == Ids(kept)[|init|] == TrimSpace(call.callId);
      TrimSpaceTrims(call.callId);
      forall i | 0 <= i < |init|
        ensures keptInit[i].callId == init[i].callId
      {
        assert Ids(kept)[i] == Ids(calls)[i];
      }
      KeptIdsAreClean(init);
    }
  }

  // A round keeps every dispatched call under its own id exactly when no id is
  // empty or has white space around it; otherwise the call is dropped from
  // the round, or answered under the trimmed id.
  lemma RoundKeepsCallsIff(calls: seq<T.Call>)
    requires forall i :: 0 <= i < |calls| ==> calls[i].args.QueryArgs? && T.DecodesQuery(calls[i].args)
    ensures Ids(Normalize(RoundCalls(calls))) == Ids(RoundCalls(calls))
       <==> forall i :: 0 <= i < |calls| ==> calls[i].callId != "" && Trimmed(calls[i].callId)
  {
    var round := RoundCalls(calls);
    assert CleanIds(round) <==> forall i :: 0 <= i < |calls| ==> calls[i].callId != "" && Trimmed(calls[i].callId) by {
      assert forall i :: 0 <= i < |calls| ==> round[i].callId == calls[i].callId;
    }
    if CleanIds(round) {
      CleanIdsAreKept(round);
    } else if Ids(Normalize(round)) == Ids(round) {
      KeptIdsAreClean(round);
    }
  }

  // An id with a space before it is answered under another id, and an empty
  // one is dropped from the round.
  lemma PaddedIdIsRenamed()
    ensures Normalize([QueryCall(" c", 7, "")]) == [QueryCall("c", 7, "")]
    ensures Normalize([QueryCall("", 7, "")]) == []
  {
    assert TrimLeft(" c") == "c" by {
      assert " c"[1..] == "c";
    }
    assert [QueryCall(" c", 7, "")][..0] == [] && [QueryCall("", 7, "")][..0] == [];
  }

  // ---------------------------------------------------------------------
  // Starting the group
  // ---------------------------------------------------------------------

  // startDocumentQueryGroup: a round needs a usable call and only attached
  // documents; stored is what opening the group then answers.
  function QueryGroupStart(calls: seq<T.Call>, attached: set<int>, stored: Result<int, string>): Result<int, string>
    requires forall i :: 0 <= i < |calls| ==> calls[i].args.QueryArgs?
  {
    var round := Normalize(RoundCalls(calls));
    if round == [] then Err("document query round requires at least one tool call")
    else if exists i :: 0 <= i < |Docs(round)| && Docs(round)[i] !in attached then Err("documents not attached to thread")
    else stored
  }

  method StartDocumentQueryGroup(calls: seq<T.Call>, attached: set<int>, stored: Result<int, string>) returns (r: Result<int, string>)
    requires forall i :: 0 <= i < |calls| ==> calls[i].args.QueryArgs?
    ensures r == QueryGroupStart(calls, attached, stored)
  {
    var round := Normalize(RoundCalls(calls));
    if |round| == 0 {
      return Err("document query round requires at least one tool call");
    }
    var work := BuildDocQueryDocWork(round);
    var missing: seq<int> := [];
    for n := 0 to |work|
      invariant |work| == |Docs(round)| && (missing == [] <==> forall i :: 0 <= i < n ==> Docs(round)[i] in attached)
    {
      assert work[n].documentId == Docs(round)[n];
      if work[n].documentId !in attached {
        missing := missing + [work[n].documentId];
      }
    }
    if |missing| > 0 {
      return Err("documents not attached to thread");
    }
    r := stored;
  }

  lemma {:induction false} RoundDocuments(calls: seq<QueryCall>, doc: int)
    ensures doc in Docs(Normalize(calls)) <==> exists i :: 0 <= i < |calls| && Usable(calls[i]) && calls[i].documentId == doc
  {
    if calls != [] {
      var init, call := calls[..|calls| - 1], calls[|calls| - 1];
      RoundDocuments(init, doc);
      if Usable(call) {
        var last := QueryCall(TrimSpace(call.callId), call.documentId, TrimSpace(call.task));
        assert (Normalize(init) + [last])[..|Normalize(init)|] == Normalize(init);
        assert doc in Docs(Normalize(calls)) <==> doc in Docs(Normalize(init)) || doc == call.documentId;
      }
      assert forall i :: 0 <= i < |init| ==> init[i] == calls[i];
    }
  }

  lemma {:induction false} RoundIsEmptyIff(calls: seq<QueryCall>)
    ensures Normalize(calls) == [] <==> forall i :: 0 <= i < |calls| ==> !Usable(calls[i])
  {
    if calls != [] {
      RoundIsEmptyIff(calls[..|calls| - 1]);
    }
  }

  // Some call has an id, and every call with an id names an attached document.
  predicate Startable(calls: seq<T.Call>, attached: set<int>)
    requires forall i :: 0 <= i < |calls| ==> calls[i].args.QueryArgs?
  {
    && (exists i :: 0 <= i < |calls| && !Blank(calls[i].callId))
    && (forall i :: 0 <= i < |calls| && !Blank(calls[i].callId) ==> calls[i].args.documentId in attached)
  }

  lemma RoundIsAttachedIff(calls: seq<QueryCall>, attached: set<int>)
    ensures (forall k :: 0 <= k < |Docs(Normalize(calls))| ==> Docs(Normalize(calls))[k] in attached)
       <==> (forall i :: 0 <= i < |calls| && Usable(calls[i]) ==> calls[i].documentId in attached)
  {
    var docs := Docs(Normalize(calls));
    forall k | 0 <= k < |docs|
      ensures exists i :: 0 <= i < |calls| && Usable(calls[i]) && calls[i].documentId == docs[k]
    {
      RoundDocuments(calls, docs[k]);
    }
    forall i | 0 <= i < |calls| && Usable(calls[i])
      ensures calls[i].documentId in docs
    {
      RoundDocuments(calls, calls[i].documentId);
    }
  }

  lemma QueryGroupStartsIff(calls: seq<T.Call>, attached: set<int>, stored: Result<int, string>)
    requires forall i :: 0 <= i < |calls| ==> calls[i].args.QueryArgs? && T.DecodesQuery(calls[i].args)
    ensures QueryGroupStart(calls, attached, stored).Ok? <==> Startable(calls, attached) && stored.Ok?
  {
    var all := RoundCalls(calls);
    RoundIsEmptyIff(all);
    RoundIsAttachedIff(all, attached);
    forall i | 0 <= i < |calls|
      ensures (Usable(all[i]) <==> !Blank(calls[i].callId)) && all[i].documentId == calls[i].args.documentId
    {
    }
    assert Normalize(all) != [] <==> exists i :: 0 <= i < |calls| && !Blank(calls[i].callId);
  }

  // A response of query_document calls only, within the cap, on a running
  // thread that is not one-shot: its calls are dropped unless the stream runs
  // on to a recorded end, some call has an id, every document asked for under
  // an id is attached and the group can be opened.
  lemma NoDroppedQueryIff(
    meta0: T.ThreadMeta, events: seq<T.Event>, n: nat, started: Result<int, string>, r: T.StreamResult, m: nat,
    queries: seq<T.Call>, attached: set<int>, stored: Result<int, string>)
    requires T.EndsAt(meta0, events, n, started, r) && !meta0.oneShot && meta0.status != T.WaitingTool
    requires m < |events| && T.SaysCompleted(events[m]) && forall i :: 0 <= i < m ==> !T.IsTerminal(T.Underlying(events[i]))
    requires T.EmittedIn(events, m) != [] && T.Uniform(T.EmittedIn(events, m), T.Query, meta0.depth)
    requires T.Carries(queries, T.EmittedIn(events, m))
    requires (forall i :: 0 <= i < |queries| ==> queries[i].args.QueryArgs?) && started == QueryGroupStart(queries, attached, stored)
    ensures T.NothingDropped(r, T.EmittedIn(events, m))
       <==> T.RunsOn(events, m) && events[m].ResponseCompleted? && Startable(queries, attached) && stored.Ok?
  {
    var calls := T.EmittedIn(events, m);
    T.NoDroppedCallIff(meta0, events, n, started, r, m);
    assert T.KindOf(calls[0]) == T.Query;
    T.UniformOutcome(calls, meta0, T.Query);
    assert T.GroupStarts(calls, meta0, started) <==> started.Ok?;
    forall i | 0 <= i < |queries|
      ensures T.DecodesQuery(queries[i].args)
    {
      assert calls[i] == T.Parsed(queries[i]) && T.KindOf(calls[i]) == T.Query && T.Decodes(calls[i], meta0.depth);
    }
    QueryGroupStartsIff(queries, attached, stored);
  }

  // One query of a document that is not attached: starting its group fails
  // and the thread row stays as it is, running, with the call unanswered.
  lemma UnattachedQueryIsDropped(call: T.Call, attached: set<int>, r: T.StreamResult)
    requires call == T.Call("c", "query_document", T.QueryArgs(7, "q")) && 7 !in attached
    requires r == T.StreamResult(T.RUNNING_ROOT, T.NoDispatch, [], T.DispatchFailed)
    ensures var events := [T.CallEvent(call), T.ResponseCompleted("r")];
      && T.EndsAt(T.RUNNING_ROOT, events, 1, QueryGroupStart([call], attached, Ok(1)), r)
      && !T.NothingDropped(r, T.EmittedIn(events, 1))
  {
    var events := [T.CallEvent(call), T.ResponseCompleted("r")];
    T.OneCallCollected(call, T.ResponseCompleted("r"));
    T.QueryKind(call);
    T.NextEvent(T.RUNNING_ROOT, events, 0);
    LettersAreNotSpace('c');
    LettersAreNotSpace('q');
    assert call.callId == ['c'] && call.args.task == ['q'];
    assert T.DecodesQuery(call.args);
    QueryGroupStartsIff([call], attached, Ok(1));
  }

  // ---------------------------------------------------------------------
  // From the barrier to the answers
  // ---------------------------------------------------------------------

  // Each child was started for one of the documents, and each document has
  // one child.
  ghost predicate Assigned(documents: map<int, int>, children: set<int>, docs: seq<int>) {
    && (forall c :: c in children ==> c in documents && documents[c] in docs)
    && (forall c, d :: c in children && d in children && c in documents && d in documents && documents[c] == documents[d] ==> c == d)
    && (forall doc :: doc in docs ==> exists c :: c in children && c in documents && documents[c] == doc)
  }

  lemma {:induction false} OrderListsEveryKey(rows: map<int, B.Row>, keys: set<int>, key: int)
    requires keys <= B.ReportedIn(rows) && key in keys
    ensures key in B.Order(rows, keys)
    decreases keys
  {
    var m := B.OrderStartsWith(rows, keys);
    var rest := B.Order(rows, keys - {m});
    if key == m {
      assert ([m] + rest)[0] == key;
    } else {
      OrderListsEveryKey(rows, keys - {m}, key);
      var i :| 0 <= i < |rest| && rest[i] == key;
      assert ([m] + rest)[i + 1] == key;
    }
  }

  lemma ListingEntry(documents: map<int, int>, rows: map<int, B.Row>, i: nat)
    requires i < |B.Listing(documents, rows)|
    ensures var order := B.Order(rows, B.ReportedIn(rows));
      && |order| == |B.Listing(documents, rows)| && order[i] in B.ReportedIn(rows)
      && B.Listing(documents, rows)[i] == B.ResultOf(documents, order[i], rows[order[i]])
  {
    B.OrderListsKeys(rows, B.ReportedIn(rows));
  }

  // Once every child has reported, the listing is a complete round: one
  // terminal result per document.
  lemma ReportedRoundIsComplete(calls: seq<QueryCall>, documents: map<int, int>, rows: map<int, B.Row>)
    requires B.ValidRows(rows) && B.AllReported(rows) && Assigned(documents, rows.Keys, Docs(calls))
    ensures Complete(calls, B.Listing(documents, rows))
  {
    var results, keys := B.Listing(documents, rows), B.ReportedIn(rows);
    var order := B.Order(rows, keys);
    forall i | 0 <= i < |results|
      ensures order[i] in rows.Keys && results[i].documentId == documents[order[i]] && results[i].status in {"completed", "failed", "cancelled"}
    {
      ListingEntry(documents, rows, i);
    }
    forall i, j | 0 <= i < j < |results|
      ensures results[i].documentId != results[j].documentId
    {
      ListingEntry(documents, rows, i);
      B.ListedInOrder(rows, keys, i, j);
    }
    forall doc | doc in Docs(calls)
      ensures exists i :: 0 <= i < |results| && results[i].documentId == doc
    {
      var c :| c in rows.Keys && c in documents && documents[c] == doc;
      OrderListsEveryKey(rows, keys, c);
      B.OrderListsKeys(rows, keys);
      var i :| 0 <= i < |order| && order[i] == c;
      assert results[i].documentId == doc;
    }
  }

  // An entry shows a child with what it reported: its id, status and response,
  // each text and reference that is not empty, and its document.
  ghost predicate Shows(entry: ChildEntry, child: int, p: B.Payload, documents: map<int, int>) {
    && entry.threadId == child && entry.status == p.status && entry.responseId == p.responseId
    && (entry.assistantText.Some? <==> p.assistantText != "") && (entry.assistantText.Some? ==> entry.assistantText.value == p.assistantText)
    && (entry.resultRef.Some? <==> p.resultRef != "") && (entry.resultRef.Some? ==> entry.resultRef.value == p.resultRef)
    && (entry.summaryRef.Some? <==> p.summaryRef != "") && (entry.summaryRef.Some? ==> entry.summaryRef.value == p.summaryRef)
    && (entry.errorRef.Some? <==> p.errorRef != "") && (entry.errorRef.Some? ==> entry.errorRef.value == p.errorRef)
    && entry.documentId == (if child in documents && documents[child] > 0 then Some(documents[child]) else None)
  }

  lemma TellingIsShowing(entry: ChildEntry, documents: map<int, int>, child: int, row: B.Row)
    requires row.Reported? && Tells(entry, B.ResultOf(documents, child, row))
    ensures Shows(entry, child, row.payload, documents)
  {
  }

  // The output answers the call with the one result of its document's child.
  ghost predicate AnsweredBy(out: CallOutput, call: QueryCall, child: int, s: B.State) {
    && child in s.rows && s.rows[child].Reported? && child in s.group.documents && s.group.documents[child] == call.documentId
    && out.callId == call.callId && out.body.Children?
    && |out.body.children| == 1 && Shows(out.body.children[0], child, s.rows[child].payload, s.group.documents)
  }

  ghost predicate AnsweredOnce(out: CallOutput, call: QueryCall, s: B.State) {
    exists child :: AnsweredBy(out, call, child, s)
  }

  // A group as it is opened for a round of calls.
  ghost predicate OpenedFor(json: Json<QueryCall>, s: B.State, calls: seq<QueryCall>) {
    && B.Opened(s) && !s.group.citations && calls != []
    && Encode(json, calls) == Ok(s.group.parentCallId) && Assigned(s.group.documents, s.rows.Keys, Docs(calls))
  }

  lemma {:induction false} AnswerOfCompleteRound(json: Json<QueryCall>, calls: seq<QueryCall>, s: B.State, items: seq<CallOutput>, i: nat)
    requires Lawful(json) && Normalised(calls) && i < |calls| && (|calls| == 1 ==> !HasPrefix(calls[0].callId, "{"))
    requires B.ValidRows(s.rows) && B.AllReported(s.rows) && Assigned(s.group.documents, s.rows.Keys, Docs(calls))
    requires Ok(items) == Aggregate(json, s.group.id, Encode(json, calls).value, B.Listing(s.group.documents, s.rows))
    ensures |items| == |calls| && AnsweredOnce(items[i], calls[i], s)
  {
    var results := B.Listing(s.group.documents, s.rows);
    ReportedRoundIsComplete(calls, s.group.documents, s.rows);
    FanOutFanIn(json, s.group.id, calls, results, i);
    var k :| 0 <= k < |results| && results[k].documentId == calls[i].documentId
               && |items[i].body.children| == 1 && Tells(items[i].body.children[0], results[k]);
    ListingEntry(s.group.documents, s.rows, k);
    var child := B.Order(s.rows, B.ReportedIn(s.rows))[k];
    assert child in s.rows.Keys;
    TellingIsShowing(items[i].body.children[0], s.group.documents, child, s.rows[child]);
    assert AnsweredBy(items[i], calls[i], child, s);
  }

  // For every order, duplication and conflict of deliveries, every failure
  // and every recovery: whatever is sent to the parent for a round answers
  // each of its calls exactly once, in order and under its id, with the one
  // result of the child started for the call's document.
  lemma EverySendAnswersEveryCall(json: Json<QueryCall>, s: B.State, ops: seq<B.Op>, n: nat, calls: seq<QueryCall>, k: nat, i: nat)
    requires Lawful(json) && Normalised(calls) && (|calls| == 1 ==> !HasPrefix(calls[0].callId, "{"))
    requires OpenedFor(json, s, calls) && B.OwnRun(s, ops) && n <= |ops|
    requires k < |B.At(json, s, ops, n).sent| && i < |calls|
    ensures var now := B.At(json, s, ops, n);
      |now.sent[k].items| == |calls| && AnsweredOnce(now.sent[k].items[i], calls[i], now)
  {
    B.RunInv(json, s, ops, n);
    B.RunKeeps(json, s, ops, 0, n);
    var now := B.At(json, s, ops, n);
    assert Ok(now.sent[k].items) == B.Items(json, now.group, now.rows, Err(""));
    AnswerOfCompleteRound(json, calls, now, now.sent[k].items, i);
  }

  // ---------------------------------------------------------------------
  // From the response to the answers
  // ---------------------------------------------------------------------

  // A dispatched group of queries is everything the model emitted, decoded.
  lemma QueriesDispatched(meta0: T.ThreadMeta, events: seq<T.Event>, m: nat, started: Result<int, string>, r: T.StreamResult)
    requires T.FinishedAt(meta0, events, m, started, r) && events[m].ResponseCompleted? && !meta0.oneShot && r.dispatch.QueryGroup?
    ensures T.Carries(r.dispatch.calls, T.CallsIn(events, m)) && r.dispatch.calls != []
    ensures forall j :: 0 <= j < |r.dispatch.calls| ==> T.DecodesQuery(r.dispatch.calls[j].args)
  {
    var calls := T.CallsIn(events, m);
    T.RejectedIff(calls, meta0);
    T.CompletedOutcome(calls, meta0);
    T.OutcomeFacts(meta0, T.CollectAll(calls, meta0), events[m], started, r);
    var kind :| T.Uniform(calls, kind, meta0.depth);
    T.UniformOutcome(calls, meta0, kind);
    assert kind == T.Query;
    forall j | 0 <= j < |r.dispatch.calls|
      ensures T.DecodesQuery(r.dispatch.calls[j].args)
    {
      assert calls[j] == T.Parsed(r.dispatch.calls[j]) && T.Decodes(calls[j], meta0.depth);
    }
  }

  // A response that dispatched query_document calls under clean ids: every
  // continuation of the group started for it answers every call the model
  // emitted, in order and under its id.
  lemma DispatchedQueriesAreAnswered(
    meta0: T.ThreadMeta, events: seq<T.Event>, m: nat, started: Result<int, string>, r: T.StreamResult,
    json: Json<QueryCall>, s: B.State, ops: seq<B.Op>, n: nat, k: nat)
    requires T.FinishedAt(meta0, events, m, started, r) && events[m].ResponseCompleted? && !meta0.oneShot && r.dispatch.QueryGroup?
    requires forall j :: 0 <= j < |r.dispatch.calls| ==> r.dispatch.calls[j].args.QueryArgs?
    requires CleanIds(RoundCalls(r.dispatch.calls))
    requires |r.dispatch.calls| == 1 ==> !HasPrefix(r.dispatch.calls[0].callId, "{")
    requires Lawful(json) && OpenedFor(json, s, Normalize(RoundCalls(r.dispatch.calls)))
    requires B.OwnRun(s, ops) && n <= |ops| && k < |B.At(json, s, ops, n).sent|
    ensures var emitted, now := T.CallsIn(events, m), B.At(json, s, ops, n);
      && |now.sent[k].items| == |emitted|
      && forall i :: 0 <= i < |emitted| ==>
           && emitted[i].Parsed? && emitted[i].call.args.QueryArgs?
           && now.sent[k].items[i].callId == emitted[i].call.callId
           && AnsweredOnce(now.sent[k].items[i], CallOf(emitted[i].call), now)
  {
    var emitted, now := T.CallsIn(events, m), B.At(json, s, ops, n);
    QueriesDispatched(meta0, events, m, started, r);
    var round := RoundCalls(r.dispatch.calls);
    var calls := Normalize(round);
    NormalizeNormalises(round);
    CleanIdsAreKept(round);
    EverySendAnswersEveryCall(json, s, ops, n, calls, k, 0);
    forall i | 0 <= i < |emitted|
      ensures emitted[i].Parsed? && emitted[i].call.args.QueryArgs?
      ensures now.sent[k].items[i].callId == emitted[i].call.callId
      ensures AnsweredOnce(now.sent[k].items[i], CallOf(emitted[i].call), now)
    {
      EverySendAnswersEveryCall(json, s, ops, n, calls, k, i);
      assert emitted[i] == T.Parsed(r.dispatch.calls[i]);
      var child :| AnsweredBy(now.sent[k].items[i], calls[i], child, now);
      assert AnsweredBy(now.sent[k].items[i], CallOf(emitted[i].call), child, now);
    }
  }

  // ---------------------------------------------------------------------
  // Rounds of spawned threads
  // ---------------------------------------------------------------------

  // The children's results under a spawn_threads call: one entry per child,
  // its own.
  ghost predicate EveryChildOnce(children: seq<ChildEntry>, s: B.State) {
    && |children| == |s.rows.Keys| && B.AllReported(s.rows)
    && (forall i :: 0 <= i < |children| ==>
          && children[i].threadId in s.rows && s.rows[children[i].threadId].Reported?
          && Shows(children[i], children[i].threadId, s.rows[children[i].threadId].payload, s.group.documents))
    && (forall i, j :: 0 <= i < j < |children| ==> children[i].threadId != children[j].threadId)
  }

  lemma {:induction false} TerminalEntries(results: seq<ChildResult>)
    requires forall i :: 0 <= i < |results| ==> results[i].status in {"completed", "failed", "cancelled"}
    ensures |Entries(results)| == |results| && forall i :: 0 <= i < |results| ==> Tells(Entries(results)[i], results[i])
  {
    if results != [] {
      TerminalEntries(results[..|results| - 1]);
    }
  }

  lemma ListingEntersEveryChild(s: B.State)
    requires B.ValidRows(s.rows) && B.AllReported(s.rows)
    ensures EveryChildOnce(Entries(B.Listing(s.group.documents, s.rows)), s)
  {
    var results, keys := B.Listing(s.group.documents, s.rows), B.ReportedIn(s.rows);
    forall i | 0 <= i < |results|
      ensures results[i].childThreadId in s.rows && results[i].status in {"completed", "failed", "cancelled"}
      ensures results[i] == B.ResultOf(s.group.documents, results[i].childThreadId, s.rows[results[i].childThreadId])
      ensures results[i].childThreadId == B.Order(s.rows, keys)[i]
    {
      ListingEntry(s.group.documents, s.rows, i);
    }
    forall i, j | 0 <= i < j < |results|
      ensures results[i].childThreadId != results[j].childThreadId
    {
      B.ListedInOrder(s.rows, keys, i, j);
    }
    TerminalEntries(results);
    forall i | 0 <= i < |results|
      ensures Entries(results)[i].threadId == results[i].childThreadId
      ensures Shows(Entries(results)[i], results[i].childThreadId, s.rows[results[i].childThreadId].payload, s.group.documents)
    {
      TellingIsShowing(Entries(results)[i], s.group.documents, results[i].childThreadId, s.rows[results[i].childThreadId]);
    }
    B.OrderListsKeys(s.rows, keys);
    B.EveryKeyReported(s.rows);
  }

  // An id that is stored bare and read back as itself.
  predicate PlainId(callId: string) {
    callId != "" && Trimmed(callId) && !HasPrefix(callId, "{")
  }

  // Whatever is sent to the parent of a spawn_threads group, in any run of
  // deliveries and recoveries with any failures, is one output under the
  // call's id that holds every child's terminal result once.
  lemma EverySendAnswersTheSpawn(json: Json<QueryCall>, s: B.State, ops: seq<B.Op>, n: nat, k: nat)
    requires B.Opened(s) && !s.group.citations && PlainId(s.group.parentCallId)
    requires B.OwnRun(s, ops) && n <= |ops| && k < |B.At(json, s, ops, n).sent|
    ensures var now := B.At(json, s, ops, n);
      && |now.sent[k].items| == 1 && now.sent[k].items[0].callId == s.group.parentCallId
      && now.sent[k].items[0].body.Children? && now.sent[k].items[0].body.spawnGroupId == s.group.id
      && EveryChildOnce(now.sent[k].items[0].body.children, now)
  {
    B.RunInv(json, s, ops, n);
    B.RunKeeps(json, s, ops, 0, n);
    var now := B.At(json, s, ops, n);
    assert Ok(now.sent[k].items) == B.Items(json, now.group, now.rows, Err(""));
    TrimSpaceTrims(s.group.parentCallId);
    ListingEntersEveryChild(now);
  }

  // A response that dispatched one spawn_threads call: every continuation of
  // its group answers the one call the model emitted.
  lemma DispatchedSpawnIsAnswered(
    meta0: T.ThreadMeta, events: seq<T.Event>, m: nat, started: Result<int, string>, r: T.StreamResult,
    json: Json<QueryCall>, s: B.State, ops: seq<B.Op>, n: nat, k: nat)
    requires T.FinishedAt(meta0, events, m, started, r) && events[m].ResponseCompleted? && !meta0.oneShot
    requires r.dispatch.SpawnGroup? && !T.SeveralSpawns(T.CallsIn(events, m))
    requires B.Opened(s) && !s.group.citations && s.group.parentCallId == r.dispatch.call.callId && PlainId(s.group.parentCallId)
    requires B.OwnRun(s, ops) && n <= |ops| && k < |B.At(json, s, ops, n).sent|
    ensures var emitted, now := T.CallsIn(events, m), B.At(json, s, ops, n);
      && |now.sent[k].items| == |emitted| == 1 && emitted[0].Parsed?
      && now.sent[k].items[0].callId == emitted[0].call.callId
      && now.sent[k].items[0].body.Children? && EveryChildOnce(now.sent[k].items[0].body.children, now)
  {
    T.FinishedResponseAnswersIff(meta0, events, m, started, r);
    assert T.Answered(r.dispatch, r.pages) == [r.dispatch.call];
    EverySendAnswersTheSpawn(json, s, ops, n, k);
  }

  // ---------------------------------------------------------------------
  // What the children said
  // ---------------------------------------------------------------------

  lemma {:induction false} FilteredEntries(children: seq<ChildEntry>, doc: int)
    ensures forall e :: e in EntriesFor(children, doc) ==> e in children
  {
    if children != [] {
      FilteredEntries(children[..|children| - 1], doc);
      assert forall e :: e in EntriesFor(children, doc) ==> e in children[..|children| - 1] || e == children[|children| - 1];
    }
  }

  lemma AggregatedEntries(json: Json<QueryCall>, group: int, parentCallId: string, results: seq<ChildResult>, i: nat)
    requires Aggregate(json, group, parentCallId, results).Ok? && i < |Aggregate(json, group, parentCallId, results).value|
    ensures var out := Aggregate(json, group, parentCallId, results).value[i];
      out.body.Children? && forall e :: e in out.body.children ==> e in Entries(results)
  {
    var binding := Decode(json, parentCallId).value[i];
    FilteredEntries(Entries(results), binding.documentId);
  }

  ghost predicate ShowsFirstResult(json: Json<QueryCall>, s: B.State, ops: seq<B.Op>, n: nat, entry: ChildEntry) {
    exists i: nat :: B.FirstResult(B.States(json, s, ops), ops, i, entry.threadId) && i < n
                  && Shows(entry, entry.threadId, ops[i].payload, s.group.documents)
  }

  // In every run, whatever is sent for a group that is not one of citations
  // shows each child with exactly the payload of the first awaited delivery
  // of a result of it.
  lemma SentChildrenShowTheirFirstResult(json: Json<QueryCall>, s: B.State, ops: seq<B.Op>, n: nat, k: nat, i: nat, j: nat)
    requires B.Opened(s) && !s.group.citations && B.OwnRun(s, ops) && n <= |ops|
    requires k < |B.At(json, s, ops, n).sent| && i < |B.At(json, s, ops, n).sent[k].items|
    ensures B.At(json, s, ops, n).sent[k].items[i].body.Children?
    ensures j < |B.At(json, s, ops, n).sent[k].items[i].body.children| ==>
      var entry := B.At(json, s, ops, n).sent[k].items[i].body.children[j];
      entry.threadId in s.rows && ShowsFirstResult(json, s, ops, n, entry)
  {
    B.RunInv(json, s, ops, n);
    B.RunKeeps(json, s, ops, 0, n);
    var now := B.At(json, s, ops, n);
    var results := B.Listing(now.group.documents, now.rows);
    assert Ok(now.sent[k].items) == B.Items(json, now.group, now.rows, Err(""));
    AggregatedEntries(json, now.group.id, now.group.parentCallId, results, i);
    if j < |now.sent[k].items[i].body.children| {
      var entry := now.sent[k].items[i].body.children[j];
      assert entry in Entries(results);
      EntriesTell(results);
      var r :| r in results && Tells(entry, r);
      var m :| 0 <= m < |results| && results[m] == r;
      ListingEntry(now.group.documents, now.rows, m);
      var child := B.Order(now.rows, B.ReportedIn(now.rows))[m];
      TellingIsShowing(entry, now.group.documents, child, now.rows[child]);
      assert child in now.rows.Keys;
      B.FirstResultSticks(json, s, ops, n, child);
      B.StateAt(json, s, ops, n);
      var first: nat :| B.FirstResult(B.States(json, s, ops), ops, first, child) && first < n
                     && now.rows[child] == B.Reported(ops[first].payload, ops[first].now);
      assert Shows(entry, entry.threadId, ops[first].payload, s.group.documents);
    }
  }
}
