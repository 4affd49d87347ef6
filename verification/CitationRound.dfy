// A store_citation round: one locator child per call, matched back to its
// call by child thread id when the barrier closes.

module CitationRound {
  import opened Wrappers
  import opened Text
  import opened DocQueryRound
  import opened PreparedInput

  const CITATION_KIND := "citation_locator_round"

  datatype Binding = Binding(
    callId: string, documentId: int, pages: seq<int>, instruction: string, includeImages: bool, childThreadId: int)

  function EncodeCitations(json: Json<Binding>, calls: seq<Binding>): Result<string, string> {
    if |calls| == 0 then Err("citation round requires at least one call")
    else Ok(json.marshal(RoundDoc(CITATION_KIND, calls)))
  }

  function DecodeCitations(json: Json<Binding>, text: string): Result<seq<Binding>, string> {
    var raw := TrimSpace(text);
    if raw == "" then Ok([])
    else
      match json.unmarshal(raw)
      case None => Err("decode citation round calls")
      case Some(doc) => if doc.kind != CITATION_KIND then Err("not a citation_locator_round") else Ok(doc.calls)
  }

  lemma CitationRoundTrip(json: Json<Binding>, calls: seq<Binding>)
    requires Lawful(json) && calls != []
    ensures EncodeCitations(json, calls).Ok?
    ensures DecodeCitations(json, EncodeCitations(json, calls).value) == Ok(calls)
  {
    TrimSpaceTrims(EncodeCitations(json, calls).value);
    assert HasPrefix(json.marshal(RoundDoc(CITATION_KIND, calls)), "{");
  }

  // A citation round is stored as JSON of its kind; blank text holds no call,
  // and text that is not such a round is an error.
  lemma StoredCitations(json: Json<Binding>, calls: seq<Binding>, text: string)
    ensures EncodeCitations(json, calls).Err? <==> calls == []
    ensures calls != [] ==> EncodeCitations(json, calls) == Ok(json.marshal(RoundDoc("citation_locator_round", calls)))
    ensures TrimSpace(text) == "" ==> DecodeCitations(json, text) == Ok([])
    ensures var doc := json.unmarshal(TrimSpace(text));
      TrimSpace(text) != "" ==>
        && (DecodeCitations(json, text).Ok? <==> doc.Some? && doc.value.kind == "citation_locator_round")
        && (DecodeCitations(json, text).Ok? ==> DecodeCitations(json, text).value == doc.value.calls)
  {
  }

  const FINALIZE_WORDS := Wording(
    "finalize rpc failed: ", "citation finalize returned status ", "read finalize artifact: ", "citation finalize artifact malformed")

  // The last result recorded for a child, as building a map by child id keeps it.
  function Lookup(results: seq<ChildResult>, child: int): Option<ChildResult> {
    if results == [] then None
    else if results[|results| - 1].childThreadId == child then Some(results[|results| - 1])
    else Lookup(results[..|results| - 1], child)
  }

  // Whether the child left tool-call arguments to finalize.
  predicate Finalizes(result: Option<ChildResult>) {
    result.Some? && result.value.status == "completed" && !Blank(result.value.toolCallArgs)
  }

  function CitationOutput(binding: Binding, result: Option<ChildResult>, reply: Reply): CallOutput {
    match result
    case None => ErrorOutput(binding.callId, "citation locator child missing from results")
    case Some(r) =>
      if r.status != "completed" then
        ErrorOutput(binding.callId,
          "citation locator child status=" + r.status + (if r.errorRef == "" then "" else " error_ref=" + r.errorRef))
      else if Blank(r.toolCallArgs) then
        ErrorOutput(binding.callId, "citation locator emitted no tool call arguments")
      else Resolve(binding.callId, reply, FINALIZE_WORDS)
  }

  // replies[i] is what finalizing bindings[i] would answer; it is asked for
  // only when the child completed with arguments.
  method AggregateCitations(json: Json<Binding>, parentCallId: string, results: seq<ChildResult>, replies: seq<Reply>)
    returns (r: Result<seq<CallOutput>, string>)
    requires DecodeCitations(json, parentCallId).Ok? ==> |replies| == |DecodeCitations(json, parentCallId).value|
    ensures r.Err? <==> DecodeCitations(json, parentCallId).Err? || DecodeCitations(json, parentCallId).value == []
    ensures r.Ok? ==>
      var bindings := DecodeCitations(json, parentCallId).value;
      && |r.value| == |bindings|
      && forall i :: 0 <= i < |bindings| ==>
           r.value[i] == CitationOutput(bindings[i], Lookup(results, bindings[i].childThreadId), replies[i])
  {
    var decoded := DecodeCitations(json, parentCallId);
    if decoded.Err? {
      return Err(decoded.error);
    }
    var bindings := decoded.value;
    if |bindings| == 0 {
      return Err("citation spawn group has no parent call bindings");
    }
    var byThread: map<int, ChildResult> := map[];
    for n := 0 to |results|
      invariant forall c :: c in byThread <==> Lookup(results[..n], c).Some?
      invariant forall c :: c in byThread ==> Lookup(results[..n], c) == Some(byThread[c])
    {
      assert results[..n + 1][..n] == results[..n];
      byThread := byThread[results[n].childThreadId := results[n]];
    }
    assert results[..|results|] == results;
    var outputs := [];
    for n := 0 to |bindings|
      invariant |outputs| == n
      invariant forall i :: 0 <= i < n ==>
        outputs[i] == CitationOutput(bindings[i], Lookup(results, bindings[i].childThreadId), replies[i])
    {
      var binding := bindings[n];
      var result := if binding.childThreadId in byThread then Some(byThread[binding.childThreadId]) else None;
      outputs := outputs + [CitationOutput(binding, result, replies[n])];
    }
    r := Ok(outputs);
  }

  // A binding's output carries its call id exactly when finalizing was not
  // reached, failed, or returned an item under that id.
  lemma CitationAnswersItsCall(binding: Binding, result: Option<ChildResult>, reply: Reply)
    ensures CitationOutput(binding, result, reply).callId == binding.callId
       <==> (Finalizes(result) && Succeeded(reply) ==> reply.artifact.items.value[0].callId == binding.callId)
    ensures !Finalizes(result) ==> CitationOutput(binding, result, reply).body.ErrorText?
  {
  }

  // What a citation call is answered with: the finalized item of a child that
  // completed with arguments, or an error that says what is missing.
  lemma CitationByResult(binding: Binding, result: Option<ChildResult>, reply: Reply)
    ensures var out := CitationOutput(binding, result, reply);
      && (result.None? ==> out == CallOutput(binding.callId, ErrorText("error: " + "citation locator child missing from results")))
      && (result.Some? && result.value.status != "completed" && result.value.errorRef == "" ==>
            out == CallOutput(binding.callId, ErrorText("error: " + ("citation locator child status=" + result.value.status))))
      && (result.Some? && result.value.status != "completed" && result.value.errorRef != "" ==>
            out == CallOutput(binding.callId,
                     ErrorText("error: " + ("citation locator child status=" + result.value.status + " error_ref=" + result.value.errorRef))))
      && (result.Some? && result.value.status == "completed" && TrimSpace(result.value.toolCallArgs) == "" ==>
            out == CallOutput(binding.callId, ErrorText("error: " + "citation locator emitted no tool call arguments")))
      && (result.Some? && result.value.status == "completed" && TrimSpace(result.value.toolCallArgs) != "" && Succeeded(reply) ==>
            out == reply.artifact.items.value[0])
      && (result.Some? && result.value.status == "completed" && TrimSpace(result.value.toolCallArgs) != "" && !Succeeded(reply) ==>
            out.callId == binding.callId && out.body.ErrorText?)
  {
    if result.Some? {
      var r := result.value;
      assert "citation locator child status=" + r.status + "" == "citation locator child status=" + r.status;
      assert "citation locator child status=" + r.status + (" error_ref=" + r.errorRef)
          == "citation locator child status=" + r.status + " error_ref=" + r.errorRef;
    }
  }

  ghost predicate DistinctChildren(results: seq<ChildResult>) {
    forall i, j :: 0 <= i < j < |results| ==> results[i].childThreadId != results[j].childThreadId
  }

  lemma {:induction false} LookupFindsTheChild(results: seq<ChildResult>, child: int)
    requires DistinctChildren(results)
    ensures forall i :: 0 <= i < |results| && results[i].childThreadId == child ==> Lookup(results, child) == Some(results[i])
    ensures Lookup(results, child).Some? ==>
      Lookup(results, child).value in results && Lookup(results, child).value.childThreadId == child
  {
    if results != [] {
      LookupFindsTheChild(results[..|results| - 1], child);
    }
  }

  // Matching is by child thread id alone: the order in which the children
  // reported does not change any call's result.
  lemma LookupIgnoresOrder(results: seq<ChildResult>, others: seq<ChildResult>, child: int)
    requires DistinctChildren(results) && DistinctChildren(others) && multiset(results) == multiset(others)
    ensures Lookup(results, child) == Lookup(others, child)
  {
    LookupFindsTheChild(results, child);
    LookupFindsTheChild(others, child);
    assert forall r :: r in results ==> r in multiset(results);
    assert forall r :: r in others ==> r in multiset(others);
    if Lookup(results, child).Some? {
      var r := Lookup(results, child).value;
      assert r in multiset(others);
      var i :| 0 <= i < |others| && others[i] == r;
    }
    if Lookup(others, child).Some? {
      var r := Lookup(others, child).value;
      assert r in multiset(results);
      var i :| 0 <= i < |results| && results[i] == r;
    }
  }
}
