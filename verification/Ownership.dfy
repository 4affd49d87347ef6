// Lease and generation ownership of one thread: the thread row and its
// `thread_owners` row in Postgres, changed only by the four transactions
// claim, renew, rotate and release. Each transaction is one atomic step.

module Ownership {
  import opened Wrappers

  // The column is a signed 64-bit integer under CHECK (socket_generation > 0),
  // so a generation past this one is refused by the store and rolled back.
  const MAX_GENERATION: int := 0x7fff_ffff_ffff_ffff

  datatype ThreadRow = ThreadRow(
    ownerWorker: int,
    generation: int,
    activeResponse: string,
    socketExpiresAt: Option<int>)

  datatype OwnerRow = OwnerRow(worker: int, generation: int, leaseUntil: int, claimedAt: int)

  datatype Rows = Rows(thread: Option<ThreadRow>, owner: Option<OwnerRow>)

  // What a worker must present to renew, rotate or release.
  datatype Token = Token(worker: int, generation: int)

  datatype Op =
    | Claim(worker: int, now: int, lease: Option<int>)
    | Renew(token: Token, now: int, lease: Option<int>)
    | Rotate(token: Token, now: int, lease: Option<int>, expires: int)
    | Release(token: Token, now: int)

  datatype Reply =
    | ThreadMissing
    | StoreRejected
    | ClaimRefused(generation: int, holder: int)
    | ClaimGranted(generation: int, previous: int)
    | Renewed(ok: bool)
    | Rotated(generation: int)
    | NotRotated
    | ReleaseDone

  // A zero lease time is stored as the current time.
  function LeaseEnd(lease: Option<int>, now: int): int {
    match lease
    case Some(until) => until
    case None => now
  }

  predicate ValidOp(op: Op) {
    match op
    case Claim(worker, _, _) => worker > 0
    case _ => op.token.worker > 0
  }

  // ---------------------------------------------------------------------
  // The four transactions as transitions on the two rows
  // ---------------------------------------------------------------------

  predicate Matches(owner: Option<OwnerRow>, token: Token) {
    owner.Some? && owner.value.worker == token.worker && owner.value.generation == token.generation
  }

  predicate MayRotate(r: Rows, token: Token) {
    r.thread.Some? && Matches(r.owner, token) && r.thread.value.generation == token.generation
  }

  function CurrentWorker(r: Rows): int
    requires r.thread.Some?
  {
    if r.owner.Some? && r.owner.value.worker > 0 then r.owner.value.worker else r.thread.value.ownerWorker
  }

  predicate HeldByOther(r: Rows, worker: int, now: int)
    requires r.thread.Some?
  {
    CurrentWorker(r) > 0 && CurrentWorker(r) != worker && r.owner.Some? && r.owner.value.leaseUntil > now
  }

  function CurrentGeneration(r: Rows): int
    requires r.thread.Some?
  {
    if r.owner.Some? && r.owner.value.generation > 0 then r.owner.value.generation else r.thread.value.generation
  }

  function NextGeneration(r: Rows, worker: int): int
    requires r.thread.Some?
  {
    if CurrentWorker(r) != worker || CurrentGeneration(r) == 0 then CurrentGeneration(r) + 1
    else CurrentGeneration(r)
  }

  function ClaimRows(r: Rows, worker: int, now: int, lease: Option<int>): Rows {
    if r.thread.None? || HeldByOther(r, worker, now) || NextGeneration(r, worker) > MAX_GENERATION then r
    else
      var generation := NextGeneration(r, worker);
      var claimedAt := if r.owner.Some? && r.owner.value.worker == worker then r.owner.value.claimedAt else now;
      Rows(Some(r.thread.value.(ownerWorker := worker, generation := generation)),
           Some(OwnerRow(worker, generation, LeaseEnd(lease, now), claimedAt)))
  }

  function Step(r: Rows, op: Op): Rows {
    match op
    case Claim(worker, now, lease) => ClaimRows(r, worker, now, lease)
    case Renew(token, now, lease) =>
      if Matches(r.owner, token) then
        r.(owner := Some(r.owner.value.(leaseUntil := LeaseEnd(lease, now))))
      else r
    case Rotate(token, now, lease, expires) =>
      if MayRotate(r, token) && token.generation < MAX_GENERATION then
        Rows(Some(r.thread.value.(ownerWorker := token.worker,
                                  generation := token.generation + 1,
                                  socketExpiresAt := Some(expires))),
             Some(r.owner.value.(leaseUntil := LeaseEnd(lease, now),
                                 generation := token.generation + 1)))
      else r
    case Release(token, _) =>
      if r.thread.Some? && Matches(r.owner, token) then
        Rows(Some(r.thread.value.(ownerWorker := 0, activeResponse := "", socketExpiresAt := None)), None)
      else r
  }

  function Answer(r: Rows, op: Op): Reply {
    match op
    case Claim(worker, now, _) =>
      if r.thread.None? then ThreadMissing
      else if HeldByOther(r, worker, now) then ClaimRefused(CurrentGeneration(r), CurrentWorker(r))
      else if NextGeneration(r, worker) > MAX_GENERATION then StoreRejected
      else ClaimGranted(NextGeneration(r, worker), CurrentWorker(r))
    case Renew(token, _, _) => Renewed(Matches(r.owner, token))
    case Rotate(token, _, _, _) =>
      if r.thread.None? then ThreadMissing
      else if !MayRotate(r, token) then NotRotated
      else if token.generation >= MAX_GENERATION then StoreRejected
      else Rotated(token.generation + 1)
    case Release(_, _) => ReleaseDone
  }

  // ---------------------------------------------------------------------
  // The store, updated in place
  // ---------------------------------------------------------------------

  class OwnershipStore {
    var thread: Option<ThreadRow>
    var owner: Option<OwnerRow>

    ghost function Contents(): Rows
      reads this
    {
      Rows(thread, owner)
    }

    method ClaimOwnership(worker: int, now: int, lease: Option<int>) returns (reply: Reply)
      requires worker > 0
      modifies this
      ensures Contents() == Step(old(Contents()), Claim(worker, now, lease))
      ensures reply == Answer(old(Contents()), Claim(worker, now, lease))
    {
      if thread.None? {
        return ThreadMissing;
      }
      var currentWorker, currentGeneration := thread.value.ownerWorker, thread.value.generation;
      if owner.Some? {
        if owner.value.worker > 0 { currentWorker := owner.value.worker; }
        if owner.value.generation > 0 { currentGeneration := owner.value.generation; }
      }
      if currentWorker > 0 && currentWorker != worker && owner.Some? && owner.value.leaseUntil > now {
        return ClaimRefused(currentGeneration, currentWorker);
      }
      var newGeneration := currentGeneration;
      if currentWorker != worker || newGeneration == 0 {
        newGeneration := newGeneration + 1;
      }
      var claimedAt := now;
      if owner.Some? && owner.value.worker == worker {
        claimedAt := owner.value.claimedAt;
      }
      if newGeneration > MAX_GENERATION {
        return StoreRejected;
      }
      owner := Some(OwnerRow(worker, newGeneration, LeaseEnd(lease, now), claimedAt));
      thread := Some(thread.value.(ownerWorker := worker, generation := newGeneration));
      reply := ClaimGranted(newGeneration, currentWorker);
    }

    method RenewOwnership(token: Token, now: int, lease: Option<int>) returns (reply: Reply)
      modifies this`owner
      ensures Contents() == Step(old(Contents()), Renew(token, now, lease))
      ensures reply == Answer(old(Contents()), Renew(token, now, lease))
    {
      var rowsAffected := 0;
      if Matches(owner, token) {
        owner := Some(owner.value.(leaseUntil := LeaseEnd(lease, now)));
        rowsAffected := 1;
      }
      reply := Renewed(rowsAffected == 1);
    }

    method RotateOwnership(token: Token, now: int, lease: Option<int>, expires: int) returns (reply: Reply)
      modifies this
      ensures Contents() == Step(old(Contents()), Rotate(token, now, lease, expires))
      ensures reply == Answer(old(Contents()), Rotate(token, now, lease, expires))
    {
      if thread.None? {
        return ThreadMissing;
      }
      if !Matches(owner, token) || thread.value.generation != token.generation {
        return NotRotated;
      }
      var newGeneration := token.generation + 1;
      if newGeneration > MAX_GENERATION {
        return StoreRejected;
      }
      owner := Some(owner.value.(worker := token.worker, leaseUntil := LeaseEnd(lease, now), generation := newGeneration));
      thread := Some(thread.value.(ownerWorker := token.worker, generation := newGeneration, socketExpiresAt := Some(expires)));
      reply := Rotated(newGeneration);
    }

    method ReleaseOwnership(token: Token, now: int) returns (reply: Reply)
      modifies this
      ensures Contents() == Step(old(Contents()), Release(token, now))
      ensures reply == Answer(old(Contents()), Release(token, now))
    {
      reply := ReleaseDone;
      if thread.None? || !Matches(owner, token) {
        return;
      }
      owner := None;
      thread := Some(thread.value.(ownerWorker := 0, activeResponse := "", socketExpiresAt := None));
    }
  }

  // ---------------------------------------------------------------------
  // What every step keeps
  // ---------------------------------------------------------------------

  // The two rows agree on holder and generation.
  ghost predicate Consistent(r: Rows) {
    match r.thread
    case None => r.owner.None?
    case Some(thread) =>
      && 0 <= thread.generation <= MAX_GENERATION
      && match r.owner
         case None => thread.ownerWorker == 0
         case Some(owner) =>
           && owner.worker > 0 && owner.generation > 0
           && thread.ownerWorker == owner.worker && thread.generation == owner.generation
  }

  ghost function Holder(r: Rows): Option<Token> {
    match r.owner
    case None => None
    case Some(owner) => Some(Token(owner.worker, owner.generation))
  }

  ghost function Generation(r: Rows): int {
    if r.thread.Some? then r.thread.value.generation else 0
  }

  // A token that was granted once and is not the held one any more.
  ghost predicate Dead(r: Rows, token: Token) {
    token.generation <= Generation(r) && Holder(r) != Some(token)
  }

  // A renew or rotate succeeds, and a release takes effect, exactly for the
  // held token; everybody else's call leaves both rows as they were.
  lemma OnlyTheHolderActs(r: Rows, token: Token, now: int, lease: Option<int>, expires: int)
    requires Consistent(r) && token.worker > 0
    ensures Answer(r, Renew(token, now, lease)) == Renewed(Holder(r) == Some(token))
    ensures Answer(r, Rotate(token, now, lease, expires)).Rotated?
       <==> Holder(r) == Some(token) && token.generation < MAX_GENERATION
    ensures Holder(r) == Some(token) && token.generation < MAX_GENERATION ==>
      Holder(Step(r, Rotate(token, now, lease, expires))) == Some(Token(token.worker, token.generation + 1))
    ensures Holder(r) == Some(token) ==> Holder(Step(r, Release(token, now))) == None
    ensures Holder(r) != Some(token) ==>
      Step(r, Renew(token, now, lease)) == Step(r, Rotate(token, now, lease, expires)) == Step(r, Release(token, now)) == r
  {
  }

  // A claim is refused exactly while another worker's lease is running, and
  // then changes neither row; a granted claim is the new holder and records
  // the previous worker.
  lemma ClaimDecision(r: Rows, worker: int, now: int, lease: Option<int>)
    requires Consistent(r) && worker > 0 && r.thread.Some?
    ensures Answer(r, Claim(worker, now, lease)).ClaimRefused?
       <==> r.owner.Some? && r.owner.value.worker != worker && r.owner.value.leaseUntil > now
    ensures !Answer(r, Claim(worker, now, lease)).ClaimGranted? ==> Step(r, Claim(worker, now, lease)) == r
    ensures Answer(r, Claim(worker, now, lease)).ClaimGranted? ==>
      var reply, after := Answer(r, Claim(worker, now, lease)), Step(r, Claim(worker, now, lease));
      && Holder(after) == Some(Token(worker, reply.generation))
      && after.owner.value.leaseUntil == LeaseEnd(lease, now)
      && reply.previous == r.thread.value.ownerWorker
      && (reply.generation == Generation(r) <==> r.owner.Some? && r.owner.value.worker == worker)
      && reply.generation <= Generation(r) + 1
  {
  }

  // The step gives, extends or keeps a lease, up to the time asked for or, if
  // none was, to the present.
  ghost predicate Leases(r: Rows, op: Op, worker: int, until: int) {
    match op
    case Claim(w, now, lease) =>
      w == worker && Answer(r, op).ClaimGranted? && until == (if lease.Some? then lease.value else now)
    case Renew(token, now, lease) =>
      token.worker == worker && Answer(r, op) == Renewed(true) && until == (if lease.Some? then lease.value else now)
    case Rotate(token, now, lease, _) =>
      token.worker == worker && Answer(r, op).Rotated? && until == (if lease.Some? then lease.value else now)
    case Release(_, _) => false
  }

  // A lease is honoured for exactly the time asked for: right after it was
  // given, every other worker's claim before its end is refused, naming the
  // holder, and changes nothing; from its end on it is granted with the next
  // generation. The holder itself can claim at any time, at its generation.
  lemma LeaseIsHonoured(r: Rows, op: Op, holder: int, until: int, worker: int, t: int, lease: Option<int>)
    requires Consistent(r) && ValidOp(op) && Leases(r, op, holder, until) && worker > 0
    ensures var after, claim := Step(r, op), Claim(worker, t, lease);
      && (worker != holder && t < until ==>
            Answer(after, claim) == ClaimRefused(Generation(after), holder) && Step(after, claim) == after)
      && (worker != holder && t >= until && Generation(after) < 0x7fff_ffff_ffff_ffff ==>
            Answer(after, claim) == ClaimGranted(Generation(after) + 1, holder)
            && Holder(Step(after, claim)) == Some(Token(worker, Generation(after) + 1)))
      && (worker == holder ==>
            Answer(after, claim) == ClaimGranted(Generation(after), holder) && Holder(Step(after, claim)) == Holder(after))
  {
  }

  // What each step writes besides holder, generation and lease: a rotation
  // names its new generation and stores the socket's expiry; a release frees
  // the thread and clears its response and expiry, keeping its generation; a
  // claim and a renewal leave response and expiry alone, and a claim by the
  // holder keeps the time of its first claim.
  lemma StepsWrite(r: Rows, op: Op)
    requires Consistent(r) && ValidOp(op)
    ensures var after := Step(r, op);
      match op
      case Claim(worker, now, _) =>
        Answer(r, op).ClaimGranted? ==>
          && after.thread == Some(r.thread.value.(ownerWorker := worker, generation := Answer(r, op).generation))
          && after.owner.Some? && after.owner.value.worker == worker
          && after.owner.value.claimedAt == (if r.owner.Some? && r.owner.value.worker == worker then r.owner.value.claimedAt else now)
      case Renew(_, _, _) =>
        && after.thread == r.thread
        && (r.owner.Some? ==> after.owner.Some? && after.owner.value == r.owner.value.(leaseUntil := after.owner.value.leaseUntil))
      case Rotate(token, _, _, expires) =>
        Answer(r, op).Rotated? ==>
          && Answer(r, op) == Rotated(token.generation + 1)
          && Holder(after) == Some(Token(token.worker, token.generation + 1))
          && after.thread == Some(r.thread.value.(generation := token.generation + 1, socketExpiresAt := Some(expires)))
          && after.owner.value.claimedAt == r.owner.value.claimedAt
      case Release(token, _) =>
        Holder(r) == Some(token) ==>
          after == Rows(Some(ThreadRow(0, Generation(r), "", None)), None)
  {
  }

  // On rows that disagree, as no run of these transactions leaves them, the
  // owner row decides a claim wherever it names a worker or a generation, the
  // thread row decides it otherwise, and a rotation needs them to agree. A
  // missing thread is reported, or ignored by a release, and a generation the
  // column cannot hold is rejected; then nothing changes.
  lemma RowsThatDisagree(r: Rows, op: Op)
    requires ValidOp(op)
    ensures r.thread.None? && !op.Renew? ==> Step(r, op) == r && Answer(r, op) == if op.Release? then ReleaseDone else ThreadMissing
    ensures op.Release? ==> Answer(r, op) == ReleaseDone
    ensures r.thread.Some? && op.Claim? ==>
      var worker := if r.owner.Some? && r.owner.value.worker > 0 then r.owner.value.worker else r.thread.value.ownerWorker;
      var generation := if r.owner.Some? && r.owner.value.generation > 0 then r.owner.value.generation else r.thread.value.generation;
      var next := if worker == op.worker && generation != 0 then generation else generation + 1;
      var refused := r.owner.Some? && r.owner.value.leaseUntil > op.now && worker > 0 && worker != op.worker;
      Answer(r, op) ==
        if refused then ClaimRefused(generation, worker)
        else if next <= 0x7fff_ffff_ffff_ffff then ClaimGranted(next, worker)
        else StoreRejected
    ensures r.thread.Some? && op.Rotate? ==>
      var matched := r.owner.Some? && r.owner.value.worker == op.token.worker
                     && r.owner.value.generation == r.thread.value.generation == op.token.generation;
      Answer(r, op) ==
        if !matched then NotRotated
        else if op.token.generation < 0x7fff_ffff_ffff_ffff then Rotated(op.token.generation + 1)
        else StoreRejected
    ensures Answer(r, op) in {ThreadMissing, StoreRejected, NotRotated} ==> Step(r, op) == r
  {
  }

  lemma StepKeepsConsistent(r: Rows, op: Op)
    requires Consistent(r) && ValidOp(op)
    ensures Consistent(Step(r, op))
    ensures Generation(r) <= Generation(Step(r, op))
    ensures Holder(Step(r, op)).Some? && Holder(Step(r, op)) != Holder(r) ==> Generation(r) < Generation(Step(r, op))
  {
  }

  lemma DeadStaysDead(r: Rows, op: Op, token: Token)
    requires Consistent(r) && ValidOp(op) && Dead(r, token)
    ensures Dead(Step(r, op), token)
  {
  }

  // ---------------------------------------------------------------------
  // Whole runs
  // ---------------------------------------------------------------------

  ghost predicate ValidRun(ops: seq<Op>) {
    forall i :: 0 <= i < |ops| ==> ValidOp(ops[i])
  }

  // The rows after the first n operations.
  ghost function At(r: Rows, ops: seq<Op>, n: nat): Rows
    requires n <= |ops|
  {
    if n == 0 then r else Step(At(r, ops, n - 1), ops[n - 1])
  }

  lemma {:induction false} RunKeepsConsistent(r: Rows, ops: seq<Op>, i: nat, j: nat)
    requires Consistent(r) && ValidRun(ops) && i <= j <= |ops|
    ensures Consistent(At(r, ops, i)) && Consistent(At(r, ops, j))
    ensures Generation(At(r, ops, i)) <= Generation(At(r, ops, j))
    decreases j
  {
    if j > 0 {
      RunKeepsConsistent(r, ops, if i == j then i - 1 else i, j - 1);
      StepKeepsConsistent(At(r, ops, j - 1), ops[j - 1]);
    }
  }

  lemma {:induction false} DeadForever(r: Rows, ops: seq<Op>, i: nat, j: nat, token: Token)
    requires Consistent(r) && ValidRun(ops) && i <= j <= |ops|
    requires Dead(At(r, ops, i), token)
    ensures Dead(At(r, ops, j), token)
    decreases j
  {
    if i < j {
      DeadForever(r, ops, i, j - 1, token);
      RunKeepsConsistent(r, ops, i, j - 1);
      DeadStaysDead(At(r, ops, j - 1), ops[j - 1], token);
    }
  }

  // Fencing: the generation never falls, and a token that was held and is
  // superseded or released stays dead for good, so every later renew or
  // rotate with it fails and every release with it is a no-op.
  lemma Fencing(r: Rows, ops: seq<Op>, i: nat, j: nat, k: nat, token: Token, now: int, lease: Option<int>, expires: int)
    requires Consistent(r) && ValidRun(ops) && i <= j <= k <= |ops|
    requires Holder(At(r, ops, i)) == Some(token) && Holder(At(r, ops, j)) != Some(token)
    ensures Holder(At(r, ops, k)) != Some(token)
    ensures Answer(At(r, ops, k), Renew(token, now, lease)) == Renewed(false)
    ensures !Answer(At(r, ops, k), Rotate(token, now, lease, expires)).Rotated?
    ensures var rows := At(r, ops, k);
      Step(rows, Renew(token, now, lease)) == Step(rows, Rotate(token, now, lease, expires)) == Step(rows, Release(token, now)) == rows
  {
    RunKeepsConsistent(r, ops, i, j);
    DeadForever(r, ops, j, k, token);
    RunKeepsConsistent(r, ops, j, k);
    OnlyTheHolderActs(At(r, ops, k), token, now, lease, expires);
  }

  // Between two states with one generation, a missing holder cannot return:
  // whoever holds at j must have been granted after k, at a higher generation,
  // or already hold at k.
  lemma {:induction false} HolderWithin(r: Rows, ops: seq<Op>, k: nat, j: nat)
    requires Consistent(r) && ValidRun(ops) && k <= j <= |ops|
    requires Holder(At(r, ops, j)).Some?
    ensures Holder(At(r, ops, j)) == Holder(At(r, ops, k)) || Generation(At(r, ops, k)) < Generation(At(r, ops, j))
    decreases j
  {
    if k < j {
      RunKeepsConsistent(r, ops, k, j - 1);
      StepKeepsConsistent(At(r, ops, j - 1), ops[j - 1]);
      if Holder(At(r, ops, j)) == Holder(At(r, ops, j - 1)) {
        HolderWithin(r, ops, k, j - 1);
      }
    }
  }

  lemma {:induction false} HeldWhileGenerationStays(r: Rows, ops: seq<Op>, i: nat, j: nat, k: nat)
    requires Consistent(r) && ValidRun(ops) && i <= k <= j <= |ops|
    requires Holder(At(r, ops, i)).Some? && Holder(At(r, ops, j)).Some?
    requires Generation(At(r, ops, i)) == Generation(At(r, ops, j))
    ensures Holder(At(r, ops, k)) == Holder(At(r, ops, i))
    decreases k
  {
    if i < k {
      HeldWhileGenerationStays(r, ops, i, j, k - 1);
      RunKeepsConsistent(r, ops, i, k - 1);
      RunKeepsConsistent(r, ops, k - 1, k);
      RunKeepsConsistent(r, ops, k, j);
      if Holder(At(r, ops, k)) != Holder(At(r, ops, i)) {
        StepKeepsConsistent(At(r, ops, k - 1), ops[k - 1]);
        DeadForever(r, ops, k, j, Holder(At(r, ops, i)).value);
        HolderWithin(r, ops, k, j);
        assert false;
      }
    }
  }

  // Two holders of one run have the same generation exactly when the token
  // was held without a break between them. So a change of owner, a rotation
  // and a claim after a release each take a new generation, and a generation
  // belongs to one worker only.
  lemma {:induction false} SameGenerationIffHeldThroughout(r: Rows, ops: seq<Op>, i: nat, j: nat)
    requires Consistent(r) && ValidRun(ops) && i <= j <= |ops|
    requires Holder(At(r, ops, i)).Some? && Holder(At(r, ops, j)).Some?
    ensures Generation(At(r, ops, i)) == Generation(At(r, ops, j))
       <==> forall k :: i <= k <= j ==> Holder(At(r, ops, k)) == Holder(At(r, ops, i))
  {
    var token := Holder(At(r, ops, i)).value;
    RunKeepsConsistent(r, ops, i, j);
    if Generation(At(r, ops, i)) == Generation(At(r, ops, j)) {
      forall k | i <= k <= j
        ensures Holder(At(r, ops, k)) == Some(token)
      {
        HeldWhileGenerationStays(r, ops, i, j, k);
      }
    } else {
      assert Holder(At(r, ops, j)) != Holder(At(r, ops, i));
    }
  }

  // ---------------------------------------------------------------------
  // Lease exclusion over timed runs
  // ---------------------------------------------------------------------

  // One worker's ownership, from the claim that won it to the release, or to
  // the end of the last lease it was granted.
  datatype Period = Period(worker: int, start: int, end: int)

  // The clock never goes back, from a start that no claim lies ahead of.
  ghost predicate Clocked(r: Rows, ops: seq<Op>, t0: int) {
    && (r.owner.Some? ==> r.owner.value.claimedAt <= t0)
    && (forall i :: 0 <= i < |ops| ==> t0 <= ops[i].now)
    && (forall i, j :: 0 <= i < j < |ops| ==> ops[i].now <= ops[j].now)
  }

  ghost function Extend(ps: seq<Period>, end: int): seq<Period> {
    if ps == [] then ps else ps[|ps| - 1 := ps[|ps| - 1].(end := end)]
  }

  // The end of a lease that was asked for, the present if no time was given.
  ghost function Asked(lease: Option<int>, now: int): int {
    if lease.Some? then lease.value else now
  }

  ghost function PeriodsAfter(before: Rows, ps: seq<Period>, op: Op): seq<Period> {
    match op
    case Claim(worker, now, lease) =>
      if !Answer(before, op).ClaimGranted? then ps
      else if before.owner.Some? && before.owner.value.worker == worker then Extend(ps, Asked(lease, now))
      else ps + [Period(worker, now, Asked(lease, now))]
    case Renew(token, now, lease) => if Answer(before, op) == Renewed(true) then Extend(ps, Asked(lease, now)) else ps
    case Rotate(token, now, lease, _) => if Answer(before, op).Rotated? then Extend(ps, Asked(lease, now)) else ps
    case Release(token, now) => if Holder(before) == Some(token) then Extend(ps, now) else ps
  }

  // The period that is running when a run begins, if the thread is held then.
  ghost function RunningPeriod(r: Rows): seq<Period> {
    match r.owner
    case None => []
    case Some(owner) => [Period(owner.worker, owner.claimedAt, owner.leaseUntil)]
  }

  // The periods up to the first n operations, in order of their claims.
  ghost function Periods(r: Rows, ops: seq<Op>, n: nat): seq<Period>
    requires n <= |ops|
  {
    if n == 0 then RunningPeriod(r) else PeriodsAfter(At(r, ops, n - 1), Periods(r, ops, n - 1), ops[n - 1])
  }

  ghost predicate InOrder(ps: seq<Period>, clock: int) {
    && (forall i, j :: 0 <= i < j < |ps| ==> ps[i].end <= ps[j].start)
    && (forall i, j :: 0 <= i < j < |ps| ==> ps[i].start <= ps[j].start)
    && (forall i :: 0 <= i < |ps| ==> ps[i].start <= clock)
  }

  // The last period is the running one, from the recorded claim to the end of
  // the lease; with nobody holding, it is over.
  ghost predicate LastPeriodFits(ps: seq<Period>, rows: Rows, clock: int) {
    match rows.owner
    case None => ps != [] ==> ps[|ps| - 1].end <= clock
    case Some(owner) =>
      ps != [] && ps[|ps| - 1] == Period(owner.worker, owner.claimedAt, owner.leaseUntil)
  }

  lemma ExtendInOrder(ps: seq<Period>, end: int, clock: int, now: int)
    requires InOrder(ps, clock) && clock <= now
    ensures InOrder(ps, now) && InOrder(Extend(ps, end), now)
  {
  }

  lemma AppendInOrder(ps: seq<Period>, p: Period, clock: int, now: int)
    requires InOrder(ps, clock) && clock <= now == p.start
    requires ps != [] ==> ps[|ps| - 1].end <= now
    ensures InOrder(ps + [p], now)
  {
    var qs := ps + [p];
    forall i, j | 0 <= i < j < |qs|
      ensures qs[i].end <= qs[j].start && qs[i].start <= qs[j].start
    {
      if j == |ps| && i < |ps| - 1 {
        assert ps[i].end <= ps[|ps| - 1].start;
      }
    }
  }

  lemma OrderStep(before: Rows, ps: seq<Period>, op: Op, clock: int)
    requires Consistent(before) && before.thread.Some? && ValidOp(op) && clock <= op.now
    requires InOrder(ps, clock) && LastPeriodFits(ps, before, clock)
    ensures InOrder(PeriodsAfter(before, ps, op), op.now)
  {
    ExtendInOrder(ps, if op.Release? then op.now else Asked(op.lease, op.now), clock, op.now);
    if op.Claim? && Answer(before, op).ClaimGranted? && !(before.owner.Some? && before.owner.value.worker == op.worker) {
      ClaimDecision(before, op.worker, op.now, op.lease);
      AppendInOrder(ps, Period(op.worker, op.now, Asked(op.lease, op.now)), clock, op.now);
    }
  }

  lemma LastPeriodStep(before: Rows, ps: seq<Period>, op: Op, clock: int)
    requires Consistent(before) && before.thread.Some? && ValidOp(op) && clock <= op.now
    requires LastPeriodFits(ps, before, clock)
    ensures Step(before, op).thread.Some?
    ensures LastPeriodFits(PeriodsAfter(before, ps, op), Step(before, op), op.now)
  {
  }

  ghost function ClockAt(ops: seq<Op>, n: nat, t0: int): int
    requires n <= |ops|
  {
    if n == 0 then t0 else ops[n - 1].now
  }

  lemma {:induction false} PeriodsFit(r: Rows, ops: seq<Op>, n: nat, t0: int)
    requires Consistent(r) && r.thread.Some? && ValidRun(ops) && Clocked(r, ops, t0) && n <= |ops|
    ensures At(r, ops, n).thread.Some?
    ensures InOrder(Periods(r, ops, n), ClockAt(ops, n, t0))
    ensures LastPeriodFits(Periods(r, ops, n), At(r, ops, n), ClockAt(ops, n, t0))
  {
    if n > 0 {
      PeriodsFit(r, ops, n - 1, t0);
      RunKeepsConsistent(r, ops, 0, n - 1);
      var before, ps, op := At(r, ops, n - 1), Periods(r, ops, n - 1), ops[n - 1];
      var clock := ClockAt(ops, n - 1, t0);
      assert clock <= op.now;
      OrderStep(before, ps, op, clock);
      LastPeriodStep(before, ps, op, clock);
    }
  }

  // Ownership periods never overlap, of any two workers and of one worker
  // with itself, from whatever rows the run begins with, whatever leases were asked for and however they expired.
  lemma LeaseExclusion(r: Rows, ops: seq<Op>, t0: int, i: nat, j: nat)
    requires Consistent(r) && r.thread.Some? && ValidRun(ops) && Clocked(r, ops, t0)
    requires i < j < |Periods(r, ops, |ops|)|
    ensures Periods(r, ops, |ops|)[i].end <= Periods(r, ops, |ops|)[j].start
  {
    PeriodsFit(r, ops, |ops|, t0);
  }
}
