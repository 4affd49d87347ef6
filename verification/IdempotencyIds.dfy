// The identifiers that let the message log drop repeated writes: one per
// thread, command and turn of a command's send loop.

module IdempotencyIds {
  import opened Decimal
  import opened Text

  function ResponseCreateEventId(command: int, turn: nat): string {
    if turn == 0 then FormatInt(command) else FormatInt(command) + "-turn-" + FormatNat(turn)
  }

  function CheckpointMsgId(thread: int, checkpoint: string): string {
    if Blank(checkpoint) then "checkpoint-" + FormatInt(thread)
    else "checkpoint-" + FormatInt(thread) + "-" + TrimSpace(checkpoint)
  }

  function EventMsgId(thread: int, event: string): string {
    "event-" + FormatInt(thread) + "-" + TrimSpace(event)
  }

  // What one response.create submission files its checkpoint and its client
  // event under.
  function SubmitCheckpointId(thread: int, command: int, turn: nat): string {
    CheckpointMsgId(thread, ResponseCreateEventId(command, turn))
  }

  function SubmitEventId(thread: int, command: int, turn: nat): string {
    EventMsgId(thread, "client-response-create-" + ResponseCreateEventId(command, turn))
  }

  lemma {:induction false} DigitsAtTheEnds(n: nat)
    ensures FormatNat(n) != "" && '0' <= FormatNat(n)[0] <= '9' && '0' <= FormatNat(n)[|FormatNat(n)| - 1] <= '9'
  {
    DigitValue(n % 10);
    if n >= 10 {
      DigitsAtTheEnds(n / 10);
    }
  }

  lemma NoSpaceIn(n: int)
    ensures FormatInt(n) != "" && !IsSpace(FormatInt(n)[0]) && !IsSpace(FormatInt(n)[|FormatInt(n)| - 1])
  {
    DigitsAtTheEnds(if n < 0 then -n else n);
  }

  lemma EventIdTrimmed(command: int, turn: nat)
    ensures ResponseCreateEventId(command, turn) != "" && Trimmed(ResponseCreateEventId(command, turn))
  {
    NoSpaceIn(command);
    NoSpaceIn(turn);
  }

  lemma SuffixAgrees(prefix: string, a: string, b: string)
    requires prefix + a == prefix + b
    ensures a == b
  {
    assert a == (prefix + a)[|prefix|..] == b;
  }

  lemma ResponseCreateEventIdInjective(c1: int, t1: nat, c2: int, t2: nat)
    requires ResponseCreateEventId(c1, t1) == ResponseCreateEventId(c2, t2)
    ensures c1 == c2 && t1 == t2
  {
    DashOnlyInFront(c1);
    DashOnlyInFront(c2);
    var id1, id2 := ResponseCreateEventId(c1, t1), ResponseCreateEventId(c2, t2);
    assert t1 > 0 ==> |FormatInt(c1)| < |id1| && id1[|FormatInt(c1)|] == '-';
    assert t2 > 0 ==> |FormatInt(c2)| < |id2| && id2[|FormatInt(c2)|] == '-';
    if t1 == 0 {
      FormatIntInjective(c1, c2);
    } else {
      var x, y := "turn-" + FormatNat(t1), "turn-" + FormatNat(t2);
      assert id1 == FormatInt(c1) + "-" + x;
      assert id2 == FormatInt(c2) + "-" + y;
      NumberThenDash(c1, c2, x, y);
      SuffixAgrees("turn-", FormatNat(t1), FormatNat(t2));
      FormatIntInjective(t1, t2);
    }
  }

  lemma Dashed(prefix: string, number: string, rest: string)
    ensures prefix + number + "-" + rest == prefix + (number + "-" + rest)
  {
  }

  // A prefix, a number, a dash and a rest determine the number and the rest.
  lemma PrefixNumberRest(prefix: string, n1: int, r1: string, n2: int, r2: string)
    requires prefix + FormatInt(n1) + "-" + r1 == prefix + FormatInt(n2) + "-" + r2
    ensures n1 == n2 && r1 == r2
  {
    Dashed(prefix, FormatInt(n1), r1);
    Dashed(prefix, FormatInt(n2), r2);
    SuffixAgrees(prefix, FormatInt(n1) + "-" + r1, FormatInt(n2) + "-" + r2);
    NumberThenDash(n1, n2, r1, r2);
  }

  const CLIENT := "client-response-create-"

  lemma IdsSpelledOut(thread: int, command: int, turn: nat)
    ensures SubmitCheckpointId(thread, command, turn)
         == "checkpoint-" + FormatInt(thread) + "-" + ResponseCreateEventId(command, turn)
    ensures SubmitEventId(thread, command, turn)
         == "event-" + FormatInt(thread) + "-" + (CLIENT + ResponseCreateEventId(command, turn))
  {
    var e := ResponseCreateEventId(command, turn);
    EventIdTrimmed(command, turn);
    TrimSpaceTrims(e);
    TrimSpaceTrims(CLIENT + e);
  }

  lemma Concatenated(a: string, b: string, c: string)
    ensures a + b + c == a + (b + c) && a + "" == a
  {
  }

  lemma EventIdBySuffix(command: int, turn: nat, suffix: string)
    requires suffix == if turn == 0 then "" else "-turn-" + FormatNat(turn)
    ensures ResponseCreateEventId(command, turn) == FormatInt(command) + suffix
  {
    Concatenated(FormatInt(command), "-turn-", FormatNat(turn));
  }

  // The identifiers as they are stored: the first turn goes by the command
  // alone, each later one adds its number.
  lemma IdsByTurn(thread: int, command: int, turn: nat, suffix: string)
    requires suffix == if turn == 0 then "" else "-turn-" + FormatNat(turn)
    ensures SubmitCheckpointId(thread, command, turn) == "checkpoint-" + FormatInt(thread) + "-" + (FormatInt(command) + suffix)
    ensures SubmitEventId(thread, command, turn)
         == "event-" + FormatInt(thread) + "-" + ("client-response-create-" + (FormatInt(command) + suffix))
  {
    EventIdBySuffix(command, turn, suffix);
    IdsSpelledOut(thread, command, turn);
  }

  // Without an id of its own a checkpoint goes by its thread.
  lemma CheckpointWithoutId(thread: int, checkpoint: string)
    requires TrimSpace(checkpoint) == ""
    ensures CheckpointMsgId(thread, checkpoint) == "checkpoint-" + FormatInt(thread)
  {
  }

  // Distinct (thread, command, turn) triples never share a checkpoint id or a
  // client-event id, so the log never drops a submission as a repeat of
  // another one.
  lemma SubmissionIdsInjective(thread1: int, c1: int, t1: nat, thread2: int, c2: int, t2: nat)
    requires (thread1, c1, t1) != (thread2, c2, t2)
    ensures SubmitCheckpointId(thread1, c1, t1) != SubmitCheckpointId(thread2, c2, t2)
    ensures SubmitEventId(thread1, c1, t1) != SubmitEventId(thread2, c2, t2)
  {
    IdsSpelledOut(thread1, c1, t1);
    IdsSpelledOut(thread2, c2, t2);
    var e1, e2 := ResponseCreateEventId(c1, t1), ResponseCreateEventId(c2, t2);
    if SubmitCheckpointId(thread1, c1, t1) == SubmitCheckpointId(thread2, c2, t2) {
      PrefixNumberRest("checkpoint-", thread1, e1, thread2, e2);
      ResponseCreateEventIdInjective(c1, t1, c2, t2);
    }
    if SubmitEventId(thread1, c1, t1) == SubmitEventId(thread2, c2, t2) {
      PrefixNumberRest("event-", thread1, CLIENT + e1, thread2, CLIENT + e2);
      SuffixAgrees(CLIENT, e1, e2);
      ResponseCreateEventIdInjective(c1, t1, c2, t2);
    }
  }
}
