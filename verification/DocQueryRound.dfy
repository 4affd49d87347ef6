// A query_document round: the calls of one response are encoded into the
// spawn group, fanned out to one child per document, and answered again when
// the children have reported.

module DocQueryRound {
  import opened Wrappers
  import opened Text

  const ROUND_KIND := "document_query_round"

  datatype QueryCall = QueryCall(callId: string, documentId: int, task: string)

  datatype RoundDoc<T> = RoundDoc(kind: string, calls: seq<T>)

  // JSON text, as far as the code depends on it.
  datatype Json<!T> = Json(marshal: RoundDoc<T> -> string, unmarshal: string -> Option<RoundDoc<T>>)

  ghost predicate Lawful<T(!new)>(json: Json<T>) {
    forall d {:trigger json.marshal(d)} ::
      && json.unmarshal(json.marshal(d)) == Some(d)
      && HasPrefix(json.marshal(d), "{") && Trimmed(json.marshal(d))
  }

  // A JSON text is longer than any string inside it.
  ghost predicate TextOutgrowsIds(json: Json<QueryCall>) {
    forall s: string, i: nat ::
      json.unmarshal(s).Some? && i < |json.unmarshal(s).value.calls| ==> |json.unmarshal(s).value.calls[i].callId| < |s|
  }

  // ---------------------------------------------------------------------
  // Normalising, encoding and decoding
  // ---------------------------------------------------------------------

  predicate Usable(call: QueryCall) {
    !Blank(call.callId) && call.documentId > 0
  }

  function Normalize(calls: seq<QueryCall>): seq<QueryCall> {
    if calls == [] then []
    else
      var rest := Normalize(calls[..|calls| - 1]);
      var call := calls[|calls| - 1];
      if Usable(call) then rest + [QueryCall(TrimSpace(call.callId), call.documentId, TrimSpace(call.task))] else rest
  }

  predicate Normalised(calls: seq<QueryCall>) {
    forall i :: 0 <= i < |calls| ==>
      calls[i].callId != "" && Trimmed(calls[i].callId) && calls[i].documentId > 0 && Trimmed(calls[i].task)
  }

  function Encode(json: Json<QueryCall>, calls: seq<QueryCall>): Result<string, string> {
    if |calls| == 0 then Err("document query round requires at least one tool call")
    else if |calls| == 1 then Ok(calls[0].callId)
    else Ok(json.marshal(RoundDoc(ROUND_KIND, calls)))
  }

  function Decode(json: Json<QueryCall>, text: string): Result<seq<QueryCall>, string> {
    var raw := TrimSpace(text);
    if raw == "" then Ok([])
    else if !HasPrefix(raw, "{") then Ok([QueryCall(raw, 0, "")])
    else
      match json.unmarshal(raw)
      case None => Err("decode document query round calls")
      case Some(doc) => if doc.kind != ROUND_KIND then Ok([QueryCall(raw, 0, "")]) else Ok(Normalize(doc.calls))
  }

  function Ids(calls: seq<QueryCall>): seq<string> {
    seq(|calls|, i requires 0 <= i < |calls| => calls[i].callId)
  }

  lemma {:induction false} NormalizeNormalises(calls: seq<QueryCall>)
    ensures Normalised(Normalize(calls))
  {
    if calls != [] {
      var call := calls[|calls| - 1];
      NormalizeNormalises(calls[..|calls| - 1]);
      TrimSpaceTrims(call.callId);
      TrimSpaceTrims(call.task);
    }
  }

  lemma {:induction false} NormalisedStays(calls: seq<QueryCall>)
    requires Normalised(calls)
    ensures Normalize(calls) == calls
  {
    if calls != [] {
      var init, call := calls[..|calls| - 1], calls[|calls| - 1];
      NormalisedStays(init);
      TrimSpaceTrims(call.callId);
      TrimSpaceTrims(call.task);
      assert calls == init + [call];
    }
  }

  // Decoding an encoded round returns the same call ids in order. A round of
  // one call is stored as its bare id, so its document and task are not kept.
  lemma RoundTrip(json: Json<QueryCall>, calls: seq<QueryCall>)
    requires Lawful(json) && Normalised(calls) && calls != []
    requires |calls| == 1 ==> !HasPrefix(calls[0].callId, "{")
    ensures Encode(json, calls).Ok? && Decode(json, Encode(json, calls).value).Ok?
    ensures var decoded := Decode(json, Encode(json, calls).value).value;
      && Ids(decoded) == Ids(calls)
      && decoded == if |calls| == 1 then [QueryCall(calls[0].callId, 0, "")] else calls
  {
    TrimSpaceTrims(Encode(json, calls).value);
    NormalisedStays(calls);
  }

  // A round of several calls is stored as JSON of its kind, an empty one not
  // at all. Text that is blank holds no call; text that does not look like a
  // JSON object, or is one of another kind, is a call id; an object that does
  // not decode is an error.
  lemma StoredRounds(json: Json<QueryCall>, calls: seq<QueryCall>, text: string)
    ensures calls == [] <==> Encode(json, calls).Err?
    ensures |calls| > 1 ==> Encode(json, calls) == Ok(json.marshal(RoundDoc("document_query_round", calls)))
    ensures TrimSpace(text) == "" ==> Decode(json, text) == Ok([])
    ensures var raw := TrimSpace(text);
      raw != "" && (raw[0] != '{' || (json.unmarshal(raw).Some? && json.unmarshal(raw).value.kind != "document_query_round")) ==>
        Decode(json, text) == Ok([QueryCall(raw, 0, "")])
    ensures var raw := TrimSpace(text);
      Decode(json, text).Err? <==> raw != "" && raw[0] == '{' && json.unmarshal(raw).None?
  {
  }

  lemma {:induction false} NormalizeShortens(calls: seq<QueryCall>, bound: nat)
    requires forall i :: 0 <= i < |calls| ==> |calls[i].callId| < bound
    ensures forall i :: 0 <= i < |Normalize(calls)| ==> |Normalize(calls)[i].callId| < bound
  {
    if calls != [] {
      NormalizeShortens(calls[..|calls| - 1], bound);
      TrimSpaceTrims(calls[|calls| - 1].callId);
    }
  }

  // For a single call the round trip holds exactly when its id does not look
  // like a JSON object, or is JSON of some other kind.
  lemma SingleCallRoundTripsIff(json: Json<QueryCall>, call: QueryCall)
    requires Lawful(json) && TextOutgrowsIds(json) && Normalised([call])
    ensures var decoded := Decode(json, Encode(json, [call]).value);
      (decoded.Ok? && Ids(decoded.value) == [call.callId])
      <==> (!HasPrefix(call.callId, "{")
            || (json.unmarshal(call.callId).Some? && json.unmarshal(call.callId).value.kind != "document_query_round"))
  {
    assert [call][0] == call;
    TrimSpaceTrims(call.callId);
    if json.unmarshal(call.callId).Some? {
      var inner := json.unmarshal(call.callId).value.calls;
      assert forall i :: 0 <= i < |inner| ==> |inner[i].callId| < |call.callId|;
      NormalizeShortens(inner, |call.callId|);
      var ids := Ids(Normalize(inner));
      assert |ids| > 0 ==> |ids[0]| < |call.callId|;
    }
  }

  // A call whose id is a lone brace is stored as text that does not decode, so
  // its round has no bindings to answer.
  lemma BraceIdIsLost(json: Json<QueryCall>)
    requires Lawful(json) && json.unmarshal("{").None?
    ensures Normalised([QueryCall("{", 7, "")]) && Encode(json, [QueryCall("{", 7, "")]) == Ok("{")
    ensures Decode(json, "{").Err?
  {
    TrimSpaceTrims("{");
  }

  // ---------------------------------------------------------------------
  // Fan-out: one piece of work per document
  // ---------------------------------------------------------------------

  datatype Work = Work(documentId: int, calls: seq<QueryCall>)

  // The positive document ids, each at its first appearance.
  function Docs(calls: seq<QueryCall>): seq<int> {
    if calls == [] then []
    else
      var docs, doc := Docs(calls[..|calls| - 1]), calls[|calls| - 1].documentId;
      if doc <= 0 || doc in docs then docs else docs + [doc]
  }

  function CallsFor(calls: seq<QueryCall>, doc: int): seq<QueryCall> {
    if calls == [] then []
    else
      var rest, call := CallsFor(calls[..|calls| - 1], doc), calls[|calls| - 1];
      if call.documentId == doc then rest + [call] else rest
  }

  function DocWork(calls: seq<QueryCall>): seq<Work> {
    var docs := Docs(calls);
    seq(|docs|, i requires 0 <= i < |docs| => Work(docs[i], CallsFor(calls, docs[i])))
  }

  predicate Distinct(xs: seq<int>) {
    forall i, j :: 0 <= i < j < |xs| ==> xs[i] != xs[j]
  }

  // The index holds every document's position.
  ghost predicate Indexes(byDocument: map<int, nat>, docs: seq<int>) {
    && (forall d :: d in byDocument <==> d in docs)
    && (forall d :: d in byDocument ==> byDocument[d] < |docs| && docs[byDocument[d]] == d)
  }

  lemma IndexNew(byDocument: map<int, nat>, docs: seq<int>, doc: int)
    requires Indexes(byDocument, docs) && doc !in docs
    ensures Indexes(byDocument[doc := |docs|], docs + [doc])
  {
  }

  // The groups hold what has been filed, and the index every group's place.
  ghost predicate Filed(groups: seq<Work>, byDocument: map<int, nat>, calls: seq<QueryCall>) {
    groups == DocWork(calls) && Indexes(byDocument, Docs(calls))
  }

  lemma NoCallsForNewDocument(calls: seq<QueryCall>, doc: int)
    requires doc > 0 && doc !in Docs(calls)
    ensures CallsFor(calls, doc) == []
  {
  }

  lemma NewGroup(calls: seq<QueryCall>, call: QueryCall)
    requires call.documentId > 0 && call.documentId !in Docs(calls)
    ensures Docs(calls + [call]) == Docs(calls) + [call.documentId]
    ensures DocWork(calls + [call]) == DocWork(calls) + [Work(call.documentId, [call])]
  {
    assert (calls + [call])[..|calls|] == calls;
    NoCallsForNewDocument(calls, call.documentId);
    var docs := Docs(calls);
    assert forall i :: 0 <= i < |docs| ==> docs[i] != call.documentId && CallsFor(calls + [call], docs[i]) == CallsFor(calls, docs[i]);
    assert CallsFor(calls + [call], call.documentId) == [call];
  }

  lemma DocsAreDistinct(calls: seq<QueryCall>)
    ensures Distinct(Docs(calls)) && |Docs(calls)| <= |calls|
  {
  }

  lemma GrownGroup(calls: seq<QueryCall>, call: QueryCall, p: nat)
    requires call.documentId > 0 && p < |Docs(calls)| && Docs(calls)[p] == call.documentId
    ensures Docs(calls + [call]) == Docs(calls)
    ensures DocWork(calls + [call]) == DocWork(calls)[p := DocWork(calls)[p].(calls := DocWork(calls)[p].calls + [call])]
  {
    assert (calls + [call])[..|calls|] == calls;
    DocsAreDistinct(calls);
  }

  // One turn of the loop.
  method FileCall(slots: array<Work>, count: nat, byDocument: map<int, nat>, call: QueryCall, ghost done: seq<QueryCall>)
    returns (grown: nat, index: map<int, nat>)
    requires call.documentId > 0 && count < slots.Length && Filed(slots[..count], byDocument, done)
    modifies slots
    ensures count <= grown <= count + 1 && Filed(slots[..grown], index, done + [call])
  {
    ghost var work := DocWork(done);
    if call.documentId !in byDocument {
      NewGroup(done, call);
      IndexNew(byDocument, Docs(done), call.documentId);
      slots[count] := Work(call.documentId, [call]);
      grown, index := count + 1, byDocument[call.documentId := count];
      assert slots[..grown] == work + [Work(call.documentId, [call])];
    } else {
      var p := byDocument[call.documentId];
      GrownGroup(done, call, p);
      slots[p] := slots[p].(calls := slots[p].calls + [call]);
      grown, index := count, byDocument;
      assert slots[..grown] == work[p := work[p].(calls := work[p].calls + [call])];
    }
  }

  lemma DocsArePositive(calls: seq<QueryCall>)
    ensures forall i :: 0 <= i < |Docs(calls)| ==> Docs(calls)[i] > 0
  {
  }

  lemma SkippedCall(calls: seq<QueryCall>, call: QueryCall)
    requires call.documentId <= 0
    ensures Docs(calls + [call]) == Docs(calls) && DocWork(calls + [call]) == DocWork(calls)
  {
    assert (calls + [call])[..|calls|] == calls;
    DocsArePositive(calls);
  }

  // The groups' slice has room for one group per call, so growing it never
  // moves it and an index into it stays valid.
  method BuildDocQueryDocWork(calls: seq<QueryCall>) returns (ordered: seq<Work>)
    ensures ordered == DocWork(calls)
  {
    var slots := new Work[|calls|](_ => Work(0, []));
    var count := 0;
    var byDocument: map<int, nat> := map[];
    for n := 0 to |calls|
      invariant count <= n && Filed(slots[..count], byDocument, calls[..n])
    {
      assert calls[..n + 1] == calls[..n] + [calls[n]];
      if calls[n].documentId <= 0 {
        SkippedCall(calls[..n], calls[n]);
        continue;
      }
      count, byDocument := FileCall(slots, count, byDocument, calls[n], calls[..n]);
    }
    assert calls[..|calls|] == calls;
    ordered := slots[..count];
  }

  // The groups are in order of first appearance: extending the calls only
  // appends new documents.
  lemma {:induction false} FirstAppearanceOrder(calls: seq<QueryCall>, n: nat)
    requires n <= |calls|
    ensures Docs(calls[..n]) <= Docs(calls)
    decreases |calls|
  {
    if n == |calls| {
      assert calls[..n] == calls;
    } else {
      FirstAppearanceOrder(calls[..|calls| - 1], n);
      assert calls[..|calls| - 1][..n] == calls[..n];
    }
  }

  function Positive(calls: seq<QueryCall>): seq<QueryCall> {
    if calls == [] then []
    else
      var rest, call := Positive(calls[..|calls| - 1]), calls[|calls| - 1];
      if call.documentId > 0 then rest + [call] else rest
  }

  function Flatten(docs: seq<int>, calls: seq<QueryCall>): seq<QueryCall> {
    if docs == [] then [] else Flatten(docs[..|docs| - 1], calls) + CallsFor(calls, docs[|docs| - 1])
  }

  lemma GroupHasACall(calls: seq<QueryCall>, doc: int)
    requires doc in Docs(calls)
    ensures CallsFor(calls, doc) != []
  {
  }

  lemma {:induction false} FlattenGrows(docs: seq<int>, calls: seq<QueryCall>, call: QueryCall)
    requires Distinct(docs)
    ensures multiset(Flatten(docs, calls + [call]))
         == multiset(Flatten(docs, calls)) + (if call.documentId in docs then multiset{call} else multiset{})
  {
    assert (calls + [call])[..|calls|] == calls;
    if docs != [] {
      var doc := docs[|docs| - 1];
      assert docs == docs[..|docs| - 1] + [doc];
      FlattenGrows(docs[..|docs| - 1], calls, call);
    }
  }

  lemma {:induction false} GroupsHoldEveryCall(calls: seq<QueryCall>)
    ensures multiset(Flatten(Docs(calls), calls)) == multiset(Positive(calls))
  {
    if calls != [] {
      var init, call := calls[..|calls| - 1], calls[|calls| - 1];
      assert calls == init + [call];
      var docs := Docs(init);
      GroupsHoldEveryCall(init);
      DocsAreDistinct(init);
      DocsArePositive(init);
      FlattenGrows(docs, init, call);
      if call.documentId > 0 && call.documentId !in docs {
        NewGroup(init, call);
        assert Docs(calls)[..|docs|] == docs;
        assert CallsFor(calls, call.documentId) == [call] by { NoCallsForNewDocument(init, call.documentId); }
      }
    }
  }

  // Grouping partitions the calls that name a document: groups are distinct
  // and non-empty, each holds its document's calls in order, and together
  // they hold every such call exactly once.
  lemma GroupingPartitions(calls: seq<QueryCall>)
    ensures Distinct(Docs(calls))
    ensures multiset(Flatten(Docs(calls), calls)) == multiset(Positive(calls))
    ensures forall i :: 0 <= i < |DocWork(calls)| ==> DocWork(calls)[i].calls != []
  {
    DocsAreDistinct(calls);
    GroupsHoldEveryCall(calls);
    forall i | 0 <= i < |DocWork(calls)|
      ensures DocWork(calls)[i].calls != []
    {
      GroupHasACall(calls, Docs(calls)[i]);
    }
  }

  // ---------------------------------------------------------------------
  // Fan-in: one output per call
  // ---------------------------------------------------------------------

  datatype ChildResult = ChildResult(
    childThreadId: int, documentId: int, status: string, responseId: string,
    assistantText: string, resultRef: string, summaryRef: string, errorRef: string, toolCallArgs: string)

  datatype ChildEntry = ChildEntry(
    threadId: int, responseId: string, status: string, assistantText: Option<string>,
    resultRef: Option<string>, summaryRef: Option<string>, errorRef: Option<string>, documentId: Option<int>)

  datatype Body =
    | Children(spawnGroupId: int, children: seq<ChildEntry>, documentId: Option<int>, task: Option<string>)
    | ErrorText(message: string)
    | Content(pages: seq<string>)

  // A function_call_output item of the next request.
  datatype CallOutput = CallOutput(callId: string, body: Body)

  function Present(s: string): Option<string> {
    if s == "" then None else Some(s)
  }

  function Entry(r: ChildResult): ChildEntry {
    ChildEntry(r.childThreadId, r.responseId, r.status, Present(r.assistantText), Present(r.resultRef),
               Present(r.summaryRef), Present(r.errorRef), if r.documentId > 0 then Some(r.documentId) else None)
  }

  // An entry tells what a result holds: the child, its status and response,
  // each text and reference it has, and its document.
  ghost predicate Tells(entry: ChildEntry, r: ChildResult) {
    && entry.threadId == r.childThreadId && entry.status == r.status && entry.responseId == r.responseId
    && entry.assistantText == (if r.assistantText == "" then None else Some(r.assistantText))
    && entry.resultRef == (if r.resultRef == "" then None else Some(r.resultRef))
    && entry.summaryRef == (if r.summaryRef == "" then None else Some(r.summaryRef))
    && entry.errorRef == (if r.errorRef == "" then None else Some(r.errorRef))
    && entry.documentId == (if r.documentId > 0 then Some(r.documentId) else None)
  }

  predicate Terminal(status: string) {
    status == "completed" || status == "failed" || status == "cancelled"
  }

  function Entries(results: seq<ChildResult>): seq<ChildEntry> {
    if results == [] then []
    else
      var rest, r := Entries(results[..|results| - 1]), results[|results| - 1];
      if Terminal(r.status) then rest + [Entry(r)] else rest
  }

  function EntriesFor(children: seq<ChildEntry>, doc: int): seq<ChildEntry> {
    if children == [] then []
    else
      var rest, child := EntriesFor(children[..|children| - 1], doc), children[|children| - 1];
      if child.documentId == Some(doc) then rest + [child] else rest
  }

  function OutputFor(group: int, binding: QueryCall, children: seq<ChildEntry>): CallOutput {
    CallOutput(binding.callId,
      Children(group,
               if binding.documentId > 0 then EntriesFor(children, binding.documentId) else children,
               if binding.documentId > 0 then Some(binding.documentId) else None,
               if Blank(binding.task) then None else Some(binding.task)))
  }

  function Aggregate(json: Json<QueryCall>, group: int, parentCallId: string, results: seq<ChildResult>)
    : Result<seq<CallOutput>, string>
  {
    match Decode(json, parentCallId)
    case Err(e) => Err(e)
    case Ok(bindings) =>
      if bindings == [] then Err("spawn group has no parent call bindings")
      else Ok(seq(|bindings|, i requires 0 <= i < |bindings| => OutputFor(group, bindings[i], Entries(results))))
  }

  method CollectEntries(results: seq<ChildResult>) returns (children: seq<ChildEntry>)
    ensures children == Entries(results)
  {
    children := [];
    for n := 0 to |results|
      invariant children == Entries(results[..n])
    {
      assert results[..n + 1][..n] == results[..n];
      if Terminal(results[n].status) {
        children := children + [Entry(results[n])];
      }
    }
    assert results[..|results|] == results;
  }

  method FilterEntries(children: seq<ChildEntry>, doc: int) returns (filtered: seq<ChildEntry>)
    ensures filtered == EntriesFor(children, doc)
  {
    filtered := [];
    for n := 0 to |children|
      invariant filtered == EntriesFor(children[..n], doc)
    {
      assert children[..n + 1][..n] == children[..n];
      if children[n].documentId == Some(doc) {
        filtered := filtered + [children[n]];
      }
    }
    assert children[..|children|] == children;
  }

  method AggregateSpawnOutputItem(json: Json<QueryCall>, group: int, parentCallId: string, results: seq<ChildResult>)
    returns (r: Result<seq<CallOutput>, string>)
    ensures r == Aggregate(json, group, parentCallId, results)
  {
    var children := CollectEntries(results);
    var decoded := Decode(json, parentCallId);
    if decoded.Err? {
      return Err(decoded.error);
    }
    var bindings := decoded.value;
    if |bindings| == 0 {
      return Err("spawn group has no parent call bindings");
    }
    var outputs := [];
    for n := 0 to |bindings|
      invariant |outputs| == n
      invariant forall i :: 0 <= i < n ==> outputs[i] == OutputFor(group, bindings[i], children)
    {
      var binding := bindings[n];
      var filtered, doc, task := children, None, None;
      if binding.documentId > 0 {
        filtered := FilterEntries(children, binding.documentId);
        doc := Some(binding.documentId);
      }
      if !Blank(binding.task) {
        task := Some(binding.task);
      }
      outputs := outputs + [CallOutput(binding.callId, Children(group, filtered, doc, task))];
    }
    r := Ok(outputs);
    assert outputs == Aggregate(json, group, parentCallId, results).value;
  }

  // The results that belong to one document.
  function ResultsFor(results: seq<ChildResult>, doc: int): seq<ChildResult> {
    if results == [] then []
    else
      var rest, r := ResultsFor(results[..|results| - 1], doc), results[|results| - 1];
      if r.documentId == doc then rest + [r] else rest
  }

  lemma {:induction false} FilterAfterEntry(results: seq<ChildResult>, doc: int)
    requires doc > 0
    ensures EntriesFor(Entries(results), doc) == Entries(ResultsFor(results, doc))
  {
    if results != [] {
      var init, r := results[..|results| - 1], results[|results| - 1];
      FilterAfterEntry(init, doc);
      if Terminal(r.status) {
        assert Entries(results)[..|Entries(init)|] == Entries(init);
      }
      if r.documentId == doc {
        assert ResultsFor(results, doc)[..|ResultsFor(init, doc)|] == ResultsFor(init, doc);
      }
    }
  }

  lemma AllOneDocument(results: seq<ChildResult>, doc: int)
    requires forall i :: 0 <= i < |results| ==> results[i].documentId == doc
    ensures ResultsFor(results, doc) == results
  {
    if results != [] {
      AllOneDocument(results[..|results| - 1], doc);
      assert results == results[..|results| - 1] + [results[|results| - 1]];
    }
  }

  // The barrier's results come from the round's own fan-out, so they name
  // only the round's documents.
  ghost predicate FromRound(calls: seq<QueryCall>, results: seq<ChildResult>) {
    forall i :: 0 <= i < |results| ==> results[i].documentId in Docs(calls)
  }

  lemma {:induction false} EntriesTell(results: seq<ChildResult>)
    ensures forall e :: e in Entries(results) ==>
      exists r :: r in results && r.status in {"completed", "failed", "cancelled"} && Tells(e, r)
    ensures forall r :: r in results && r.status in {"completed", "failed", "cancelled"} ==> exists e :: e in Entries(results) && Tells(e, r)
  {
    if results != [] {
      var init, r := results[..|results| - 1], results[|results| - 1];
      EntriesTell(init);
      assert Tells(Entry(r), r);
      assert results == init + [r];
      assert forall e :: e in Entries(results) ==> e in Entries(init) || (e == Entry(r) && Terminal(r.status));
    }
  }

  // Encoding a round, closing its barrier and decoding it again gives each
  // call exactly one output, in order and under its own id, with the group's
  // id and, in a round of several calls, the call's document and task. Its
  // children tell exactly the terminal results for that call's document.
  lemma FanInAnswersEveryCall(json: Json<QueryCall>, group: int, calls: seq<QueryCall>, results: seq<ChildResult>)
    requires Lawful(json) && Normalised(calls) && calls != []
    requires |calls| == 1 ==> !HasPrefix(calls[0].callId, "{")
    requires FromRound(calls, results)
    ensures var r := Aggregate(json, group, Encode(json, calls).value, results);
      && r.Ok? && |r.value| == |calls|
      && forall i :: 0 <= i < |calls| ==>
           && r.value[i].callId == calls[i].callId
           && r.value[i].body.Children?
           && r.value[i].body.spawnGroupId == group
           && r.value[i].body.children == Entries(ResultsFor(results, calls[i].documentId))
           && r.value[i].body.documentId == (if |calls| > 1 then Some(calls[i].documentId) else None)
           && r.value[i].body.task == (if |calls| > 1 && calls[i].task != "" then Some(calls[i].task) else None)
  {
    RoundTrip(json, calls);
    var r := Aggregate(json, group, Encode(json, calls).value, results);
    forall i | 0 <= i < |calls|
      ensures r.value[i].callId == calls[i].callId
      ensures r.value[i].body.children == Entries(ResultsFor(results, calls[i].documentId))
      ensures r.value[i].body.task == (if |calls| > 1 && calls[i].task != "" then Some(calls[i].task) else None)
    {
      TrimSpaceTrims(calls[i].task);
      FilterAfterEntry(results, calls[i].documentId);
      if |calls| == 1 {
        assert calls[..0] == [];
        assert Docs(calls) == [calls[0].documentId];
        AllOneDocument(results, calls[0].documentId);
      }
    }
  }

  lemma {:induction false} ResultsOfDocument(results: seq<ChildResult>, doc: int)
    ensures forall r :: r in ResultsFor(results, doc) <==> r in results && r.documentId == doc
  {
    if results != [] {
      var init, last := results[..|results| - 1], results[|results| - 1];
      ResultsOfDocument(init, doc);
      assert results == init + [last];
    }
  }

  // Results of a complete round: one per piece of work, in whatever order the
  // children reported.
  ghost predicate Complete(calls: seq<QueryCall>, results: seq<ChildResult>) {
    && FromRound(calls, results)
    && (forall i :: 0 <= i < |results| ==> results[i].status in {"completed", "failed", "cancelled"})
    && (forall i, j :: 0 <= i < j < |results| ==> results[i].documentId != results[j].documentId)
    && (forall d :: d in Docs(calls) ==> exists i :: 0 <= i < |results| && results[i].documentId == d)
  }

  lemma NoResultFor(results: seq<ChildResult>, doc: int)
    requires forall i :: 0 <= i < |results| ==> results[i].documentId != doc
    ensures ResultsFor(results, doc) == []
  {
  }

  lemma {:induction false} OneResultPerDocument(results: seq<ChildResult>, k: nat)
    requires k < |results|
    requires forall i, j :: 0 <= i < j < |results| ==> results[i].documentId != results[j].documentId
    ensures ResultsFor(results, results[k].documentId) == [results[k]]
    decreases |results|
  {
    var init, r, doc := results[..|results| - 1], results[|results| - 1], results[k].documentId;
    if k == |results| - 1 {
      NoResultFor(init, doc);
    } else {
      OneResultPerDocument(init, k);
    }
  }

  lemma {:induction false} CallsDocumentIsGrouped(calls: seq<QueryCall>, i: nat)
    requires i < |calls| && calls[i].documentId > 0
    ensures calls[i].documentId in Docs(calls)
    decreases |calls|
  {
    if i < |calls| - 1 {
      CallsDocumentIsGrouped(calls[..|calls| - 1], i);
    }
  }

  // The whole round: after the one child of each document has reported, every
  // call is answered by exactly one child, the child of its own document.
  lemma FanOutFanIn(json: Json<QueryCall>, group: int, calls: seq<QueryCall>, results: seq<ChildResult>, i: nat)
    requires Lawful(json) && Normalised(calls) && i < |calls|
    requires |calls| == 1 ==> !HasPrefix(calls[0].callId, "{")
    requires Complete(calls, results)
    ensures var r := Aggregate(json, group, Encode(json, calls).value, results);
      && r.Ok? && |r.value| == |calls| && r.value[i].callId == calls[i].callId
      && r.value[i].body.Children?
      && exists k :: 0 <= k < |results| && results[k].documentId == calls[i].documentId
                  && |r.value[i].body.children| == 1 && Tells(r.value[i].body.children[0], results[k])
  {
    FanInAnswersEveryCall(json, group, calls, results);
    CallsDocumentIsGrouped(calls, i);
    var k :| 0 <= k < |results| && results[k].documentId == calls[i].documentId;
    OneResultPerDocument(results, k);
    assert Entries([results[k]]) == [Entry(results[k])] by {
      assert [results[k]][..0] == [];
    }
    var children := Aggregate(json, group, Encode(json, calls).value, results).value[i].body.children;
    assert |children| == 1 && Tells(children[0], results[k]);
  }
}
