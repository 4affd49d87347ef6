// Prepared-input round trips: the worker asks the document handler for an
// artifact and turns whatever comes back into one function_call_output.

module PreparedInput {
  import opened Wrappers
  import opened Text
  import opened DocQueryRound

  const STATUS_OK := "ok"
  const STATUS_ERROR := "error"

  // Items is None when the stored bytes are not an array of objects.
  datatype Artifact = ReadFailed(reason: string) | Items(items: Option<seq<CallOutput>>)

  datatype Reply = RpcFailed(reason: string) | Replied(status: string, error: string, artifact: Artifact)

  // The texts a caller uses for the ways the exchange can fail.
  datatype Wording = Wording(rpc: string, status: string, read: string, malformed: string)

  function ErrorOutput(callId: string, message: string): CallOutput {
    CallOutput(callId, ErrorText("error: " + message))
  }

  predicate Succeeded(reply: Reply) {
    && reply.Replied? && TrimSpace(reply.status) == STATUS_OK
    && reply.artifact.Items? && reply.artifact.items.Some? && |reply.artifact.items.value| == 1
  }

  // The output carries the call's own id exactly when the reply is a failure
  // or the artifact's single item carries it.
  function Resolve(callId: string, reply: Reply, words: Wording): (out: CallOutput)
    ensures out.callId == callId <==> (Succeeded(reply) ==> reply.artifact.items.value[0].callId == callId)
    ensures !Succeeded(reply) ==> out.body.ErrorText? && out.callId == callId
    ensures Succeeded(reply) ==> out == reply.artifact.items.value[0]
  {
    match reply
    case RpcFailed(reason) => ErrorOutput(callId, words.rpc + reason)
    case Replied(status, error, artifact) =>
      if TrimSpace(status) != STATUS_OK then
        ErrorOutput(callId, if Blank(error) then words.status + "\"" + status + "\"" else TrimSpace(error))
      else
        match artifact
        case ReadFailed(reason) => ErrorOutput(callId, words.read + reason)
        case Items(None) => ErrorOutput(callId, words.malformed)
        case Items(Some(items)) => if |items| == 1 then items[0] else ErrorOutput(callId, words.malformed)
  }

  // ---------------------------------------------------------------------
  // The document handler's side of a page read
  // ---------------------------------------------------------------------

  function BuildReadDocumentPageInput(manifest: map<int, string>, page: int, callId: string): (r: Result<seq<CallOutput>, string>)
    ensures r.Ok? <==> page > 0 && !Blank(callId) && page in manifest
    ensures r.Ok? ==> r.value == [CallOutput(callId, Content([manifest[page]]))]
  {
    if page <= 0 then Err("page_number must be positive")
    else if Blank(callId) then Err("call_id is required")
    else if page !in manifest then Err("page not found in manifest")
    else Ok([CallOutput(callId, Content([manifest[page]]))])
  }

  function HandlePageRead(manifest: map<int, string>, page: int, callId: string): Reply {
    match BuildReadDocumentPageInput(manifest, page, callId)
    case Err(e) => Replied(STATUS_ERROR, e, Items(None))
    case Ok(items) => Replied(STATUS_OK, "", Items(Some(items)))
  }

  // The handler's reply to a request for a page.
  lemma PageReadReply(manifest: map<int, string>, page: int, callId: string)
    ensures HandlePageRead(manifest, page, callId) ==
      if page <= 0 then Replied("error", "page_number must be positive", Items(None))
      else if TrimSpace(callId) == "" then Replied("error", "call_id is required", Items(None))
      else if page !in manifest then Replied("error", "page not found in manifest", Items(None))
      else Replied("ok", "", Items(Some([CallOutput(callId, Content([manifest[page]]))])))
  {
  }

  // How each failure of an exchange reads, and what a success gives: an
  // unanswered request, a status other than ok with the answer's own error
  // text if it has one, an artifact that cannot be read, or one that is not a
  // single item.
  lemma ResolveByReply(callId: string, reply: Reply, words: Wording)
    ensures var out := Resolve(callId, reply, words);
      match reply
      case RpcFailed(reason) => out == CallOutput(callId, ErrorText("error: " + words.rpc + reason))
      case Replied(status, error, artifact) =>
        && (TrimSpace(status) != "ok" && TrimSpace(error) != "" ==> out == CallOutput(callId, ErrorText("error: " + TrimSpace(error))))
        && (TrimSpace(status) != "ok" && TrimSpace(error) == "" ==>
              out == CallOutput(callId, ErrorText("error: " + words.status + "\"" + status + "\"")))
        && (TrimSpace(status) == "ok" && artifact.ReadFailed? ==>
              out == CallOutput(callId, ErrorText("error: " + words.read + artifact.reason)))
        && (TrimSpace(status) == "ok" && artifact.Items? && (artifact.items.None? || |artifact.items.value| != 1) ==>
              out == CallOutput(callId, ErrorText("error: " + words.malformed)))
        && (TrimSpace(status) == "ok" && artifact.Items? && artifact.items.Some? && |artifact.items.value| == 1 ==>
              out == artifact.items.value[0])
  {
    match reply
    case RpcFailed(reason) => assert "error: " + (words.rpc + reason) == "error: " + words.rpc + reason;
    case Replied(status, error, artifact) =>
      assert "error: " + (words.status + "\"" + status + "\"") == "error: " + words.status + "\"" + status + "\"";
      if artifact.ReadFailed? {
        assert "error: " + (words.read + artifact.reason) == "error: " + words.read + artifact.reason;
      }
  }
}
