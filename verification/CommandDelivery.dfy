// A thread actor's handling of one queue message after another: commands are
// delivered, executed, acknowledged or put back, and delivered again.

module CommandDelivery {
  import opened Wrappers
  import T = ToolDispatch

  const MAX_TRANSIENT_DELIVERIES: nat := 5

  // In seconds.
  const RETRY_BASE: nat := 2

  const RETRY_MAX: nat := 30

  datatype Key = Key(threadId: int, cmdId: int)

  datatype Thread = Thread(status: T.Status, owner: int, generation: nat, leaseUntil: Option<nat>, activeResponse: string)

  // What an error returned by a command matches; several may hold at once.
  datatype Failure = Failure(
    ownershipConflict: bool,
    precondition: bool,
    missingThread: bool,
    unsupported: bool,
    permanent: bool,
    transient: bool)

  datatype Outcome = Succeeds | Fails(failure: Failure)

  datatype StoreFault = NoFault | LoadFails | ReleaseFails | SaveFails

  // One delivery, with all that its handling meets: whether the processed
  // table answers, how the command ends and what it leaves behind, whether it
  // can be marked, and where failing the thread breaks off. A delivery number
  // of 0 stands for missing metadata.
  datatype Delivery = Delivery(
    key: Key,
    number: nat,
    lookupOk: bool,
    outcome: Outcome,
    threadsAfter: map<int, Thread>,
    sessionAfter: bool,
    markOk: bool,
    fault: StoreFault)

  datatype Reply = Ack | Nak | NakWithDelay(seconds: nat) | Term

  // `executed` lists the commands executed so far.
  datatype State = State(processed: set<Key>, threads: map<int, Thread>, session: bool, executed: seq<Key>)

  function Deliveries(number: nat): nat {
    if number == 0 then 1 else number
  }

  function Doublings(shift: nat): nat {
    if shift == 0 then 1 else 2 * Doublings(shift - 1)
  }

  function RetryDelay(deliveries: nat): nat {
    var shift := (if deliveries == 0 then 1 else deliveries) - 1;
    var delay := RETRY_BASE * Doublings(if shift > 4 then 4 else shift);
    if delay > RETRY_MAX then RETRY_MAX else delay
  }

  // The thread is failed: the session goes first, then the ownership held by
  // this worker and with it the active response, then the status.
  function FailThread(s: State, threadId: int, worker: int, fault: StoreFault): (State, bool) {
    if fault == LoadFails then (s, false)
    else if threadId !in s.threads then (s, true)
    else
      var thread, quiet := s.threads[threadId], s.(session := false);
      var owned := thread.owner == worker && thread.generation > 0;
      if owned && fault == ReleaseFails then (quiet, false)
      else
        var freed := if owned then thread.(owner := 0, leaseUntil := None, activeResponse := "") else thread;
        if fault == SaveFails then (quiet.(threads := s.threads[threadId := freed]), false)
        else (quiet.(threads := s.threads[threadId := freed.(status := T.Failed, activeResponse := "")]), true)
  }

  function HandleTransient(s: State, d: Delivery, worker: int): (State, Reply) {
    var deliveries := Deliveries(d.number);
    if deliveries < MAX_TRANSIENT_DELIVERIES then (s, NakWithDelay(RetryDelay(deliveries)))
    else
      var (next, done) := FailThread(s, d.key.threadId, worker, d.fault);
      (next, if done then Ack else NakWithDelay(RetryDelay(deliveries)))
  }

  function Executed(s: State, d: Delivery): State {
    s.(executed := s.executed + [d.key], threads := d.threadsAfter, session := d.sessionAfter)
  }

  function Handle(s: State, d: Delivery, worker: int): (State, Reply) {
    if !d.lookupOk then (s, Nak)
    else if d.key in s.processed then (s, Ack)
    else
      var ran := Executed(s, d);
      match d.outcome
      case Succeeds => if d.markOk then (ran.(processed := s.processed + {d.key}), Ack) else (ran, Nak)
      case Fails(f) =>
        if f.ownershipConflict || f.precondition || f.missingThread then (ran, Ack)
        else if f.unsupported then (ran, Term)
        else if f.permanent then (ran, Ack)
        else if f.transient then HandleTransient(ran, d, worker)
        else (ran, Nak)
  }

  class CommandHandler {
    const worker: int
    var processed: set<Key>
    var threads: map<int, Thread>
    var session: bool
    ghost var executed: seq<Key>

    constructor (worker: int, processed: set<Key>, threads: map<int, Thread>)
      ensures this.worker == worker && View() == State(processed, threads, false, [])
    {
      this.worker, this.processed, this.threads, session, executed := worker, processed, threads, false, [];
    }

    ghost function View(): State
      reads this
    {
      State(processed, threads, session, executed)
    }

    method HandleQueuedCommand(d: Delivery) returns (reply: Reply)
      modifies this
      ensures (View(), reply) == Handle(old(View()), d, worker)
    {
      if !d.lookupOk {
        return Nak;
      }
      if d.key in processed {
        return Ack;
      }
      ProcessCommand(d);
      match d.outcome
      case Succeeds =>
        if !d.markOk {
          return Nak;
        }
        processed := processed + {d.key};
        reply := Ack;
      case Fails(f) =>
        if f.ownershipConflict || f.precondition || f.missingThread {
          reply := Ack;
        } else if f.unsupported {
          reply := Term;
        } else if f.permanent {
          reply := Ack;
        } else if f.transient {
          reply := HandleTransientCommandError(d);
        } else {
          reply := Nak;
        }
    }

    method ProcessCommand(d: Delivery)
      modifies this
      ensures View() == Executed(old(View()), d)
    {
      threads, session, executed := d.threadsAfter, d.sessionAfter, executed + [d.key];
    }

    method HandleTransientCommandError(d: Delivery) returns (reply: Reply)
      modifies this
      ensures (View(), reply) == HandleTransient(old(View()), d, worker)
    {
      var deliveries := if d.number == 0 then 1 else d.number;
      if deliveries >= MAX_TRANSIENT_DELIVERIES {
        var failed := FailThreadAfterRetryExhaustion(d.key.threadId, d.fault);
        return if failed then Ack else NakWithDelay(RetryDelay(deliveries));
      }
      reply := NakWithDelay(RetryDelay(deliveries));
    }

    method FailThreadAfterRetryExhaustion(threadId: int, fault: StoreFault) returns (done: bool)
      modifies this
      ensures (View(), done) == FailThread(old(View()), threadId, worker, fault)
    {
      if fault == LoadFails {
        return false;
      }
      if threadId !in threads {
        return true;
      }
      var thread := threads[threadId];
      session := false;
      if thread.owner == worker && thread.generation > 0 {
        if fault == ReleaseFails {
          return false;
        }
        thread := thread.(owner := 0, leaseUntil := None, activeResponse := "");
      }
      threads := threads[threadId := thread];
      if fault == SaveFails {
        return false;
      }
      thread := thread.(status := T.Failed, activeResponse := "");
      threads := threads[threadId := thread];
      assert threads == old(threads)[threadId := thread];
      done := true;
    }
  }

  // ---------------------------------------------------------------------
  // Runs
  // ---------------------------------------------------------------------

  function Run(s: State, run: seq<Delivery>, worker: int): State
    decreases |run|
  {
    if run == [] then s else Run(Handle(s, run[0], worker).0, run[1..], worker)
  }

  function Replies(s: State, run: seq<Delivery>, worker: int): (r: seq<Reply>)
    ensures |r| == |run|
    decreases |run|
  {
    if run == [] then []
    else
      var (next, reply) := Handle(s, run[0], worker);
      [reply] + Replies(next, run[1..], worker)
  }

  function Count(keys: seq<Key>, key: Key): nat {
    if keys == [] then 0 else Count(keys[..|keys| - 1], key) + if keys[|keys| - 1] == key then 1 else 0
  }

  // How often a run executes a command, and how often it completes it:
  // executes it with success and marks it.
  function Executions(s: State, run: seq<Delivery>, worker: int, key: Key): int {
    Count(Run(s, run, worker).executed, key) - Count(s.executed, key)
  }

  predicate Completes(s: State, d: Delivery, key: Key) {
    d.key == key && d.lookupOk && key !in s.processed && d.outcome.Succeeds? && d.markOk
  }

  function Completions(s: State, run: seq<Delivery>, worker: int, key: Key): nat
    decreases |run|
  {
    if run == [] then 0
    else (if Completes(s, run[0], key) then 1 else 0) + Completions(Handle(s, run[0], worker).0, run[1..], worker, key)
  }

  predicate Executes(s: State, d: Delivery, key: Key) {
    d.key == key && d.lookupOk && key !in s.processed
  }

  lemma FailingKeepsTheLog(s: State, d: Delivery, worker: int)
    ensures HandleTransient(s, d, worker).0.executed == s.executed
    ensures HandleTransient(s, d, worker).0.processed == s.processed
  {
  }

  lemma CountAfter(keys: seq<Key>, last: Key, key: Key)
    ensures Count(keys + [last], key) == Count(keys, key) + if last == key then 1 else 0
  {
    assert (keys + [last])[..|keys|] == keys;
  }

  lemma HandleExecutes(s: State, d: Delivery, worker: int, key: Key)
    ensures var next := Handle(s, d, worker).0;
      && Count(next.executed, key) == Count(s.executed, key) + (if Executes(s, d, key) then 1 else 0)
      && s.processed <= next.processed
      && (key in next.processed && key !in s.processed <==> Completes(s, d, key))
  {
    CountAfter(s.executed, d.key, key);
    FailingKeepsTheLog(Executed(s, d), d, worker);
  }

  // A command marked processed is never executed again, whatever is
  // delivered and whichever store calls fail.
  lemma {:induction false} ProcessedIsNeverExecutedAgain(s: State, run: seq<Delivery>, worker: int, key: Key)
    requires key in s.processed
    ensures Executions(s, run, worker, key) == 0 && Completions(s, run, worker, key) == 0
    ensures key in Run(s, run, worker).processed
    decreases |run|
  {
    if run != [] {
      HandleExecutes(s, run[0], worker, key);
      ProcessedIsNeverExecutedAgain(Handle(s, run[0], worker).0, run[1..], worker, key);
    }
  }

  // A command completes at most once, and it is marked in the end exactly when
  // it was before or completes in the run.
  lemma {:induction false} CompletesAtMostOnce(s: State, run: seq<Delivery>, worker: int, key: Key)
    ensures Completions(s, run, worker, key) <= 1
    ensures key in Run(s, run, worker).processed <==> key in s.processed || Completions(s, run, worker, key) == 1
    decreases |run|
  {
    if run != [] {
      var next := Handle(s, run[0], worker).0;
      HandleExecutes(s, run[0], worker, key);
      CompletesAtMostOnce(next, run[1..], worker, key);
      if Completes(s, run[0], key) {
        ProcessedIsNeverExecutedAgain(next, run[1..], worker, key);
      }
    }
  }

  // ---------------------------------------------------------------------
  // Transient failures
  // ---------------------------------------------------------------------

  lemma {:induction false} DoublingsGrow(a: nat, b: nat)
    requires a <= b
    ensures Doublings(a) <= Doublings(b)
    decreases b - a
  {
    if a < b {
      DoublingsGrow(a, b - 1);
    }
  }

  lemma DelaysGrow(a: nat, b: nat)
    requires a <= b
    ensures 2 <= RetryDelay(a) <= RetryDelay(b) <= 30
    ensures [RetryDelay(1), RetryDelay(2), RetryDelay(3), RetryDelay(4), RetryDelay(5)] == [2, 4, 8, 16, 30]
  {
    var n, m := if a == 0 then 1 else a, if b == 0 then 1 else b;
    DoublingsGrow(0, if n - 1 > 4 then 4 else n - 1);
    DoublingsGrow(if n - 1 > 4 then 4 else n - 1, if m - 1 > 4 then 4 else m - 1);
    assert Doublings(1) == 2 && Doublings(2) == 4 && Doublings(3) == 8 && Doublings(4) == 16;
  }

  predicate OnlyTransient(f: Failure) {
    f.transient && !f.ownershipConflict && !f.precondition && !f.missingThread && !f.unsupported && !f.permanent
  }

  predicate Final(reply: Reply) {
    reply == Ack || reply == Term
  }

  // Every delivery of the command fails transiently with the store available.
  predicate FailsTransiently(run: seq<Delivery>, key: Key) {
    forall i :: 0 <= i < |run| && run[i].key == key ==>
      run[i].lookupOk && run[i].outcome.Fails? && OnlyTransient(run[i].outcome.failure) && run[i].fault == NoFault
  }

  // The command's deliveries are numbered upwards from above `last`, and none
  // follows a final reply: every acknowledgement reaches the queue.
  predicate Rising(run: seq<Delivery>, replies: seq<Reply>, key: Key, last: nat)
    requires |run| == |replies|
  {
    && (forall i :: 0 <= i < |run| && run[i].key == key ==> last < run[i].number)
    && (forall i, j :: 0 <= i < j < |run| && run[i].key == key && run[j].key == key ==>
          run[i].number < run[j].number && !Final(replies[i]))
  }

  predicate Redelivered(s: State, run: seq<Delivery>, worker: int, key: Key, last: nat) {
    Rising(run, Replies(s, run, worker), key, last)
  }

  predicate FailedFor(s: State, key: Key) {
    key.threadId in s.threads ==>
      s.threads[key.threadId].status == T.Failed && s.threads[key.threadId].activeResponse == "" && !s.session
  }

  // The reply to each delivery. What cannot be looked up, or not be marked,
  // is put back; a processed command is acknowledged unexecuted and a marked
  // success executed. An ownership conflict, a failed precondition, a missing
  // thread or a permanent remote error is acknowledged for good, though an
  // unsupported kind that is none of the first three is terminated; what is
  // left is put back, with a delay only if it is transient.
  lemma RepliesByOutcome(s: State, d: Delivery, worker: int)
    ensures var (next, reply) := Handle(s, d, worker);
      && (!d.lookupOk ==> reply == Nak && next == s)
      && (d.lookupOk && d.key in s.processed ==> reply == Ack && next == s)
      && (d.lookupOk && d.key !in s.processed ==> next.executed == s.executed + [d.key])
      && (d.lookupOk && d.key !in s.processed && d.outcome.Succeeds? ==>
            && reply == (if d.markOk then Ack else Nak)
            && next == State(if d.markOk then s.processed + {d.key} else s.processed, d.threadsAfter, d.sessionAfter, s.executed + [d.key]))
      && (d.lookupOk && d.key !in s.processed && d.outcome.Fails? ==>
            var f := d.outcome.failure;
            && next.processed == s.processed
            && (f.ownershipConflict || f.precondition || f.missingThread ==> reply == Ack)
            && (!f.ownershipConflict && !f.precondition && !f.missingThread ==>
                  && (f.unsupported ==> reply == Term)
                  && (!f.unsupported && f.permanent ==> reply == Ack)
                  && (!f.unsupported && !f.permanent && !f.transient ==> reply == Nak))
            && (f.ownershipConflict || f.precondition || f.missingThread || f.unsupported || f.permanent || !f.transient ==>
                  next.threads == d.threadsAfter && next.session == d.sessionAfter))
  {
  }

  // Failing a thread on a fifth delivery, by the store call that fails. The
  // row of another worker's thread, or of one never claimed, keeps its owner.
  lemma FailingByFault(s: State, threadId: int, worker: int, fault: StoreFault)
    requires threadId in s.threads
    ensures var (next, done) := FailThread(s, threadId, worker, fault);
      var row := s.threads[threadId];
      var mine := row.owner == worker && row.generation >= 1;
      && next.processed == s.processed && next.executed == s.executed
      && next.session == (fault == LoadFails && s.session)
      && (fault == LoadFails || (fault == ReleaseFails && mine) ==> !done && next.threads == s.threads)
      && (fault == SaveFails ==>
            && !done
            && next.threads == (if mine then s.threads[threadId := Thread(row.status, 0, row.generation, None, "")] else s.threads))
      && (fault == NoFault || (fault == ReleaseFails && !mine) ==>
            && done
            && next.threads == s.threads[threadId :=
                 if mine then Thread(T.Failed, 0, row.generation, None, "")
                 else Thread(T.Failed, row.owner, row.generation, row.leaseUntil, "")])
  {
    assert s.threads[threadId := s.threads[threadId]] == s.threads;
  }

  // A transient failure is put back with a delay, except from the fifth
  // delivery on: then the command is acknowledged with its thread failed, its
  // session gone and nothing left owned by this worker.
  lemma TransientReply(s: State, d: Delivery, worker: int)
    requires d.lookupOk && d.key !in s.processed && d.outcome.Fails? && OnlyTransient(d.outcome.failure) && d.fault == NoFault
    ensures var (next, reply) := Handle(s, d, worker);
      && (Final(reply) <==> d.number >= 5)
      && (!Final(reply) ==> reply == NakWithDelay(RetryDelay(d.number)))
      && (Final(reply) ==> reply == Ack && FailedFor(next, d.key))
      && (Final(reply) && worker != 0 && d.key.threadId in next.threads && next.threads[d.key.threadId].generation > 0 ==>
            next.threads[d.key.threadId].owner != worker)
  {
  }

  lemma TailRises(run: seq<Delivery>, replies: seq<Reply>, key: Key, last: nat)
    requires run != [] && |run| == |replies| && Rising(run, replies, key, last)
    ensures Rising(run[1..], replies[1..], key, if run[0].key == key then run[0].number else last)
  {
    forall i, j | 0 <= i < j < |run[1..]| && run[1..][i].key == key && run[1..][j].key == key
      ensures run[1..][i].number < run[1..][j].number && !Final(replies[1..][i])
    {
      assert run[i + 1].key == key && run[j + 1].key == key;
    }
    forall i | 0 <= i < |run[1..]| && run[1..][i].key == key
      ensures (if run[0].key == key then run[0].number else last) < run[1..][i].number
    {
      assert run[i + 1].key == key;
    }
  }

  lemma TailOfRun(s: State, run: seq<Delivery>, worker: int, key: Key, last: nat)
    requires run != [] && FailsTransiently(run, key) && Redelivered(s, run, worker, key, last)
    ensures FailsTransiently(run[1..], key)
    ensures Redelivered(Handle(s, run[0], worker).0, run[1..], worker, key, if run[0].key == key then run[0].number else last)
  {
    var replies := Replies(s, run, worker);
    TailRises(run, replies, key, last);
    assert Replies(Handle(s, run[0], worker).0, run[1..], worker) == replies[1..];
  }

  lemma {:induction false} NotDelivered(s: State, run: seq<Delivery>, worker: int, key: Key)
    requires forall i :: 0 <= i < |run| ==> run[i].key != key
    ensures Executions(s, run, worker, key) == 0
    decreases |run|
  {
    if run != [] {
      HandleExecutes(s, run[0], worker, key);
      NotDelivered(Handle(s, run[0], worker).0, run[1..], worker, key);
    }
  }

  // A command that only ever fails transiently, delivered with rising numbers
  // among any other commands, is executed at most five times.
  lemma {:induction false} AtMostFiveExecutions(s: State, run: seq<Delivery>, worker: int, key: Key, last: nat)
    requires FailsTransiently(run, key) && Redelivered(s, run, worker, key, last)
    ensures Executions(s, run, worker, key) <= if last < 5 then 5 - last else 1
    ensures key in Run(s, run, worker).processed <==> key in s.processed
    decreases |run|
  {
    if run != [] {
      var (next, reply) := Handle(s, run[0], worker);
      HandleExecutes(s, run[0], worker, key);
      TailOfRun(s, run, worker, key, last);
      if run[0].key == key {
        AtMostFiveExecutions(next, run[1..], worker, key, run[0].number);
        if key !in s.processed && run[0].number >= 5 {
          TransientReply(s, run[0], worker);
          assert Replies(s, run, worker)[0] == reply;
          assert forall i :: 0 < i < |run| ==> run[i].key != key;
          NotDelivered(next, run[1..], worker, key);
        }
      } else {
        AtMostFiveExecutions(next, run[1..], worker, key, last);
      }
    }
  }

  // Each of its replies: a delay that never shrinks and never exceeds thirty
  // seconds, until the final acknowledgement.
  lemma {:induction false} RepliesToATransientCommand(s: State, run: seq<Delivery>, worker: int, key: Key, last: nat)
    requires key !in s.processed && FailsTransiently(run, key) && Redelivered(s, run, worker, key, last)
    ensures var replies := Replies(s, run, worker);
      forall i :: 0 <= i < |run| && run[i].key == key ==>
        replies[i] == if run[i].number >= 5 then Ack else NakWithDelay(RetryDelay(run[i].number))
    decreases |run|
  {
    if run != [] {
      var (next, reply) := Handle(s, run[0], worker);
      HandleExecutes(s, run[0], worker, key);
      TailOfRun(s, run, worker, key, last);
      if run[0].key == key {
        TransientReply(s, run[0], worker);
        RepliesToATransientCommand(next, run[1..], worker, key, run[0].number);
      } else {
        RepliesToATransientCommand(next, run[1..], worker, key, last);
      }
      var replies := Replies(s, run, worker);
      forall i | 0 < i < |run| && run[i].key == key
        ensures replies[i] == if run[i].number >= 5 then Ack else NakWithDelay(RetryDelay(run[i].number))
      {
        assert run[1..][i - 1].key == key;
      }
    }
  }

  lemma DelaysNeverShrink(s: State, run: seq<Delivery>, worker: int, key: Key, i: nat, j: nat)
    requires key !in s.processed && FailsTransiently(run, key) && Redelivered(s, run, worker, key, 0)
    requires i < j < |run| && run[i].key == key && run[j].key == key
    ensures var replies := Replies(s, run, worker);
      && replies[i].NakWithDelay? && replies[i].seconds <= 30
      && (replies[j] == Ack || (replies[j].NakWithDelay? && replies[i].seconds <= replies[j].seconds <= 30))
  {
    RepliesToATransientCommand(s, run, worker, key, 0);
    DelaysGrow(run[i].number, run[j].number);
  }

  // Without delivery metadata the count never rises: the command is put back
  // for two seconds each time and its thread is never failed.
  lemma {:induction false} NoMetadataNoExhaustion(s: State, run: seq<Delivery>, worker: int, key: Key)
    requires key !in s.processed && FailsTransiently(run, key)
    requires forall i :: 0 <= i < |run| ==> run[i].key == key && run[i].number == 0
    ensures forall i :: 0 <= i < |run| ==> Replies(s, run, worker)[i] == NakWithDelay(2)
    ensures Executions(s, run, worker, key) == |run|
    decreases |run|
  {
    if run != [] {
      HandleExecutes(s, run[0], worker, key);
      NoMetadataNoExhaustion(Handle(s, run[0], worker).0, run[1..], worker, key);
      DelaysGrow(1, 1);
    }
  }
}
