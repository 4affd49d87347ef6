// The send loop of one command: submit a request, stream its response and,
// while the response only reads document pages, answer the reads and submit
// a follow-up.

module SendLoop {
  import opened Wrappers
  import opened Text
  import opened Decimal
  import opened DocQueryRound
  import opened PreparedInput
  import opened IdempotencyIds
  import T = ToolDispatch

  const PAGE_WORDS := Wording(
    "failed to prepare page: ", "prepare input returned status ", "read prepared input: ", "prepared page-read artifact was malformed")

  // What the surroundings do during one turn. faults(i) is a failure of the
  // i-th page read's exchange with the document handler, if it has one.
  datatype Turn = Turn(
    submits: bool,
    events: seq<T.Event>,
    started: Result<int, string>,
    continues: bool,
    attached: set<int>,
    manifests: map<int, map<int, string>>,
    faults: nat -> Option<Reply>)

  function Exchange(turn: Turn, i: nat, call: T.Call): Reply
    requires call.args.PageArgs?
  {
    var fault := turn.faults(i);
    if fault.Some? && !Succeeded(fault.value) then fault.value
    else
      var manifest := if call.args.documentId in turn.manifests then turn.manifests[call.args.documentId] else map[];
      HandlePageRead(manifest, call.args.pageNumber, call.callId)
  }

  function PageOutput(turn: Turn, i: nat, call: T.Call): (out: CallOutput)
    requires call.args.PageArgs?
    ensures out.callId == call.callId
    ensures call.args.documentId !in turn.attached ==> out.body.ErrorText?
  {
    if call.args.documentId !in turn.attached then
      ErrorOutput(call.callId, "document " + FormatInt(call.args.documentId) + " is not attached to this thread")
    else Resolve(call.callId, Exchange(turn, i, call), PAGE_WORDS)
  }

  lemma OkIsTrimmed()
    ensures TrimSpace("ok") == "ok" && TrimSpace("error") == "error" && "ok" != "error"
  {
    LettersAreNotSpace('o');
    LettersAreNotSpace('k');
    LettersAreNotSpace('e');
    LettersAreNotSpace('r');
    assert Trimmed("ok") && Trimmed("error");
    TrimSpaceTrims("ok");
    TrimSpaceTrims("error");
  }

  // A page read of an attached document whose exchange is not disturbed holds
  // exactly that document's entry for that page, if there is one, and is an
  // error under the call's id otherwise.
  lemma PageReadHoldsThePage(turn: Turn, i: nat, call: T.Call)
    requires call.args.PageArgs? && call.args.documentId in turn.attached && turn.faults(i).None? && TrimSpace(call.callId) != ""
    ensures var doc, page := call.args.documentId, call.args.pageNumber;
      && (doc in turn.manifests && page in turn.manifests[doc] && page > 0 ==>
            PageOutput(turn, i, call) == CallOutput(call.callId, Content([turn.manifests[doc][page]])))
      && (!(doc in turn.manifests && page in turn.manifests[doc] && page > 0) ==>
            PageOutput(turn, i, call).callId == call.callId && PageOutput(turn, i, call).body.ErrorText?)
  {
    OkIsTrimmed();
  }

  // A read of a document that is not attached, or whose exchange fails, is an
  // error under the call's id.
  lemma PageReadFails(turn: Turn, i: nat, call: T.Call)
    requires call.args.PageArgs?
    requires call.args.documentId !in turn.attached || (turn.faults(i).Some? && !Succeeded(turn.faults(i).value))
    ensures PageOutput(turn, i, call).callId == call.callId && PageOutput(turn, i, call).body.ErrorText?
  {
  }

  method ExecutePendingPageReads(turn: Turn, calls: seq<T.Call>) returns (items: seq<CallOutput>)
    requires forall i :: 0 <= i < |calls| ==> calls[i].args.PageArgs?
    ensures |items| == |calls|
    ensures forall i :: 0 <= i < |calls| ==> items[i] == PageOutput(turn, i, calls[i])
  {
    items := [];
    for n := 0 to |calls|
      invariant |items| == n
      invariant forall i :: 0 <= i < n ==> items[i] == PageOutput(turn, i, calls[i])
    {
      var call := calls[n];
      if call.args.documentId !in turn.attached {
        items := items + [ErrorOutput(call.callId, "document " + FormatInt(call.args.documentId) + " is not attached to this thread")];
        continue;
      }
      items := items + [Resolve(call.callId, Exchange(turn, n, call), PAGE_WORDS)];
    }
  }

  // One submitted request; the first one carries the command's own input.
  datatype Submission = Submission(eventId: string, outputs: Option<seq<CallOutput>>)

  // The follow-up answers exactly the page reads of the response before it,
  // which completed at event n.
  ghost predicate AnswersTurn(meta: T.ThreadMeta, turn: Turn, n: nat, outputs: Option<seq<CallOutput>>) {
    && n < |turn.events| && turn.events[n].ResponseCompleted?
    && (forall i :: 0 <= i < n ==> !T.Stops(turn.events[i]))
    && var p := T.CollectAll(T.CallsIn(turn.events, n), meta);
    && !p.rejected && outputs.Some?
    && |outputs.value| == |T.PagesOf(p)| > 0
    && (forall i :: 0 <= i < |T.PagesOf(p)| ==> T.PagesOf(p)[i].args.PageArgs?)
    && (forall i :: 0 <= i < |T.PagesOf(p)| ==> outputs.value[i] == PageOutput(turn, i, T.PagesOf(p)[i]))
  }

  ghost predicate Follows(meta: T.ThreadMeta, turn: Turn, outputs: Option<seq<CallOutput>>) {
    exists n :: AnswersTurn(meta, turn, n, outputs)
  }

  datatype TurnEnd = Stopped(ok: bool) | Continue(meta: T.ThreadMeta, outputs: seq<CallOutput>)

  // The response completed at event n and only read pages.
  ghost predicate ReadsPagesAt(meta: T.ThreadMeta, turn: Turn, n: nat) {
    && T.Undecided(meta, turn.events, n) && n < |turn.events| && turn.events[n].ResponseCompleted?
    && T.PagesOf(T.CollectAll(T.CallsIn(turn.events, n), meta)) != []
  }

  ghost predicate ReadsPages(meta: T.ThreadMeta, turn: Turn) {
    exists n :: ReadsPagesAt(meta, turn, n)
  }

  // The turn is not continued: its response did not only read pages, or the
  // follow-up could not be prepared.
  ghost predicate Breaks(meta: T.ThreadMeta, turn: Turn) {
    !(ReadsPages(meta, turn) && turn.continues)
  }

  // The response ended at event n with no page to read and nothing that could
  // not be started.
  ghost predicate SettlesAt(meta: T.ThreadMeta, turn: Turn, n: nat) {
    && T.Undecided(meta, turn.events, n) && n < |turn.events|
    && (turn.events[n].ResponseFailed? || turn.events[n].ResponseIncomplete?
        || (turn.events[n].ResponseCompleted?
            && var p := T.CollectAll(T.CallsIn(turn.events, n), meta);
               T.PagesOf(p) == [] && (T.GroupOf(p) != T.NoDispatch ==> turn.started.Ok?)))
  }

  ghost predicate Settles(meta: T.ThreadMeta, turn: Turn) {
    exists n :: SettlesAt(meta, turn, n)
  }

  ghost predicate TurnEnds(meta: T.ThreadMeta, turn: Turn, end: TurnEnd) {
    match end
    case Continue(_, outputs) => !Breaks(meta, turn) && !Settles(meta, turn) && Follows(meta, turn, Some(outputs))
    case Stopped(ok) => Breaks(meta, turn) && (ok <==> Settles(meta, turn))
  }

  lemma PagesAlone(p: T.Pending)
    requires T.PagesOf(p) != []
    ensures T.GroupOf(p) == T.NoDispatch
  {
  }

  lemma PagesReturnedIff(meta: T.ThreadMeta, turn: Turn, n: nat, r: T.StreamResult)
    requires T.EndsAt(meta, turn.events, n, turn.started, r)
    ensures r.pages != [] <==> ReadsPages(meta, turn)
    ensures r.pages != [] ==> r.end.Done? && ReadsPagesAt(meta, turn, n)
  {
    if r.pages != [] {
      assert ReadsPagesAt(meta, turn, n);
    }
    if m: nat :| ReadsPagesAt(meta, turn, m) {
      assert T.DecidedBy(meta, turn.events, m) && T.DecidedBy(meta, turn.events, n);
      T.DecidedOnce(meta, turn.events, m, n);
      PagesAlone(T.CollectAll(T.CallsIn(turn.events, m), meta));
    }
  }

  lemma SettledIff(meta: T.ThreadMeta, turn: Turn, n: nat, r: T.StreamResult)
    requires T.EndsAt(meta, turn.events, n, turn.started, r)
    ensures r.end.Done? && r.pages == [] <==> Settles(meta, turn)
  {
    if r.end.Done? && r.pages == [] {
      assert SettlesAt(meta, turn, n);
    }
    if m: nat :| SettlesAt(meta, turn, m) {
      assert T.DecidedBy(meta, turn.events, m) && T.DecidedBy(meta, turn.events, n);
      T.DecidedOnce(meta, turn.events, m, n);
    }
  }

  // Stream one response and, if it only read pages, answer the reads.
  method StreamTurn(meta: T.ThreadMeta, turn: Turn) returns (end: TurnEnd)
    ensures TurnEnds(meta, turn, end)
    ensures end.Continue? ==> T.SameIdentity(end.meta, meta)
  {
    var r := T.StreamUntilTerminal(meta, turn.events, turn.started);
    ghost var n :| T.EndsAt(meta, turn.events, n, turn.started, r);
    PagesReturnedIff(meta, turn, n, r);
    SettledIff(meta, turn, n, r);
    if !r.end.Done? {
      return Stopped(false);
    }
    if |r.pages| == 0 {
      return Stopped(true);
    }
    if !turn.continues {
      return Stopped(false);
    }
    T.CollectedPagesDecode(T.CallsIn(turn.events, n), meta);
    var items := ExecutePendingPageReads(turn, r.pages);
    assert AnswersTurn(meta, turn, n, Some(items));
    end := Continue(r.meta, items);
  }

  lemma FollowsAlike(meta: T.ThreadMeta, other: T.ThreadMeta, turn: Turn, outputs: Option<seq<CallOutput>>)
    requires T.SameIdentity(meta, other) && Follows(meta, turn, outputs)
    ensures Follows(other, turn, outputs)
  {
    var n :| AnswersTurn(meta, turn, n, outputs);
    T.CollectsAlike(T.CallsIn(turn.events, n), meta, other);
    assert AnswersTurn(other, turn, n, outputs);
  }

  ghost predicate InputFits(meta: T.ThreadMeta, turns: seq<Turn>, k: nat, outputs: Option<seq<CallOutput>>) {
    if k == 0 then outputs.None? else k <= |turns| && Follows(meta, turns[k - 1], outputs)
  }

  // Each submission has its turn's event id; the first carries the command's
  // own input and every other one answers the turn before it.
  ghost predicate LogFits(meta: T.ThreadMeta, command: int, turns: seq<Turn>, log: seq<Submission>) {
    && |log| <= |turns|
    && (forall k :: 0 <= k < |log| ==> log[k].eventId == ResponseCreateEventId(command, k))
    && (forall k :: 0 <= k < |log| ==> InputFits(meta, turns, k, log[k].outputs))
  }

  lemma LogGrows(meta: T.ThreadMeta, command: int, turns: seq<Turn>, log: seq<Submission>, outputs: Option<seq<CallOutput>>)
    requires LogFits(meta, command, turns, log) && |log| < |turns| && InputFits(meta, turns, |log|, outputs)
    ensures LogFits(meta, command, turns, log + [Submission(ResponseCreateEventId(command, |log|), outputs)])
  {
    var grown := log + [Submission(ResponseCreateEventId(command, |log|), outputs)];
    forall k | 0 <= k < |grown|
      ensures grown[k].eventId == ResponseCreateEventId(command, k) && InputFits(meta, turns, k, grown[k].outputs)
    {
      assert k < |log| ==> grown[k] == log[k] && InputFits(meta, turns, k, log[k].outputs);
    }
  }

  lemma ReadsAlike(meta: T.ThreadMeta, other: T.ThreadMeta, turn: Turn)
    requires T.SameIdentity(meta, other)
    ensures ReadsPages(meta, turn) <==> ReadsPages(other, turn)
    ensures Settles(meta, turn) <==> Settles(other, turn)
  {
    forall n: nat | n < |turn.events|
      ensures ReadsPagesAt(meta, turn, n) <==> ReadsPagesAt(other, turn, n)
      ensures SettlesAt(meta, turn, n) <==> SettlesAt(other, turn, n)
    {
      T.CollectsAlike(T.CallsIn(turn.events, n), meta, other);
    }
  }

  lemma TurnEndsAlike(meta: T.ThreadMeta, other: T.ThreadMeta, turn: Turn, end: TurnEnd)
    requires T.SameIdentity(meta, other) && TurnEnds(meta, turn, end)
    ensures TurnEnds(other, turn, end)
  {
    ReadsAlike(meta, other, turn);
    if end.Continue? {
      FollowsAlike(meta, other, turn, Some(end.outputs));
    }
  }

  // Each of the first k turns was submitted and continued.
  ghost predicate WentOn(meta0: T.ThreadMeta, turns: seq<Turn>, k: nat) {
    && k <= |turns|
    && forall j :: 0 <= j < k ==> turns[j].submits && turns[j].continues && ReadsPages(meta0, turns[j])
  }

  // After k turns that were all continued.
  ghost predicate Looping(
    meta0: T.ThreadMeta, command: int, turns: seq<Turn>, k: nat, meta: T.ThreadMeta, outputs: Option<seq<CallOutput>>, log: seq<Submission>)
  {
    && |log| == k && T.SameIdentity(meta, meta0)
    && LogFits(meta0, command, turns, log) && InputFits(meta0, turns, k, outputs)
    && WentOn(meta0, turns, k) && (k > 0 ==> !Settles(meta0, turns[k - 1]))
  }

  // The loop ended after |log| submissions: every turn but the last went on,
  // the last did not unless the next request was refused, and the loop
  // succeeds exactly when the last response settled.
  ghost predicate LoopEnds(meta0: T.ThreadMeta, turns: seq<Turn>, log: seq<Submission>, ok: bool) {
    && |log| <= |turns|
    && (log != [] ==> turns[|log| - 1].submits && WentOn(meta0, turns, |log| - 1))
    && (ok <==> log != [] && Settles(meta0, turns[|log| - 1]))
    && (|log| < |turns| && turns[|log|].submits ==>
          log != [] && !(turns[|log| - 1].continues && ReadsPages(meta0, turns[|log| - 1])))
  }

  lemma EndsRefused(
    meta0: T.ThreadMeta, command: int, turns: seq<Turn>, k: nat, meta: T.ThreadMeta, outputs: Option<seq<CallOutput>>, log: seq<Submission>)
    requires Looping(meta0, command, turns, k, meta, outputs, log) && (k < |turns| ==> !turns[k].submits)
    ensures LogFits(meta0, command, turns, log) && LoopEnds(meta0, turns, log, false)
  {
    assert k > 0 ==> turns[k - 1].submits;
  }

  lemma TurnDone(
    meta0: T.ThreadMeta, command: int, turns: seq<Turn>, k: nat, meta: T.ThreadMeta, outputs: Option<seq<CallOutput>>, log: seq<Submission>,
    end: TurnEnd)
    requires Looping(meta0, command, turns, k, meta, outputs, log) && k < |turns| && turns[k].submits && TurnEnds(meta, turns[k], end)
    ensures var grown := log + [Submission(ResponseCreateEventId(command, k), outputs)];
      && LogFits(meta0, command, turns, grown)
      && (end.Continue? && T.SameIdentity(end.meta, meta) ==>
            Looping(meta0, command, turns, k + 1, end.meta, Some(end.outputs), grown))
      && (end.Stopped? ==> LoopEnds(meta0, turns, grown, end.ok))
  {
    LogGrows(meta0, command, turns, log, outputs);
    TurnEndsAlike(meta, meta0, turns[k], end);
  }

  // A command's whole send loop: it goes on for exactly as long as requests
  // are accepted, responses only read pages and the follow-up can be prepared,
  // and it succeeds exactly when the last response settled.
  method SendAndStream(meta0: T.ThreadMeta, command: int, turns: seq<Turn>) returns (log: seq<Submission>, ok: bool)
    ensures LogFits(meta0, command, turns, log)
    ensures LoopEnds(meta0, turns, log, ok)
  {
    log := [];
    var meta, outputs := meta0, None;
    for k := 0 to |turns|
      invariant Looping(meta0, command, turns, k, meta, outputs, log)
    {
      if !turns[k].submits {
        EndsRefused(meta0, command, turns, k, meta, outputs, log);
        return log, false;
      }
      ghost var before := log;
      log := log + [Submission(ResponseCreateEventId(command, k), outputs)];
      var end := StreamTurn(meta, turns[k]);
      TurnDone(meta0, command, turns, k, meta, outputs, before, end);
      if end.Stopped? {
        return log, end.ok;
      }
      meta, outputs := end.meta, Some(end.outputs);
    }
    EndsRefused(meta0, command, turns, |turns|, meta, outputs, log);
    ok := false;
  }

  // One output per call, in order and under its call id.
  ghost predicate AnswersCalls(outputs: seq<CallOutput>, calls: seq<T.Emitted>) {
    && |outputs| == |calls|
    && forall i :: 0 <= i < |calls| ==> calls[i].Parsed? && outputs[i].callId == calls[i].call.callId
  }

  // The response completed at event n, its first terminal event, and the
  // outputs answer its calls.
  ghost predicate AnswersResponse(events: seq<T.Event>, n: nat, outputs: seq<CallOutput>) {
    && n < |events| && events[n].ResponseCompleted? && (forall i :: 0 <= i < n ==> !T.Stops(events[i]))
    && AnswersCalls(outputs, T.CallsIn(events, n))
  }

  lemma EveryCallAnswered(meta: T.ThreadMeta, turn: Turn, n: nat, outputs: Option<seq<CallOutput>>)
    requires AnswersTurn(meta, turn, n, outputs) && !meta.oneShot
    ensures AnswersCalls(outputs.value, T.CallsIn(turn.events, n))
    ensures forall e :: e in T.CallsIn(turn.events, n) ==> T.KindOf(e) == T.Page
  {
    var calls := T.CallsIn(turn.events, n);
    var p := T.CollectAll(calls, meta);
    T.RejectedIff(calls, meta);
    T.CompletedOutcome(calls, meta);
    assert calls != [];
    var kind :| T.Uniform(calls, kind, meta.depth);
    T.UniformOutcome(calls, meta, kind);
    assert kind == T.Page && T.PagesOf(p) == T.OfKind(calls, T.Page);
    forall i | 0 <= i < |calls|
      ensures calls[i] == T.Parsed(T.PagesOf(p)[i]) && T.KindOf(calls[i]) == T.Page
    {
    }
  }

  // Over a whole send loop of a thread that is not one-shot: every request
  // after the first is the follow-up of the response before it and holds
  // exactly one function_call_output per call of that response, in order and
  // under its call id, whichever attachment, request, status or artifact
  // failures occurred.
  lemma EveryTurnAnswersTheOneBefore(meta: T.ThreadMeta, command: int, turns: seq<Turn>, log: seq<Submission>, k: nat)
    requires LogFits(meta, command, turns, log) && 0 < k < |log| && !meta.oneShot
    ensures log[k].outputs.Some?
    ensures var events, outputs := turns[k - 1].events, log[k].outputs.value;
      exists n :: AnswersResponse(events, n, outputs)
  {
    assert InputFits(meta, turns, k, log[k].outputs);
    var n :| AnswersTurn(meta, turns[k - 1], n, log[k].outputs);
    EveryCallAnswered(meta, turns[k - 1], n, log[k].outputs);
    assert AnswersResponse(turns[k - 1].events, n, log[k].outputs.value);
  }

  // The submissions of one command never share a checkpoint or event id.
  lemma TurnsFiledApart(thread: int, command: int, i: nat, j: nat)
    requires i < j
    ensures SubmitCheckpointId(thread, command, i) != SubmitCheckpointId(thread, command, j)
    ensures SubmitEventId(thread, command, i) != SubmitEventId(thread, command, j)
  {
    SubmissionIdsInjective(thread, command, i, thread, command, j);
  }
}
