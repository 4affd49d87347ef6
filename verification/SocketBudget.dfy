// The worker's socket budget: one shared counter, taken and given back on
// every path by which an actor gains, swaps or loses its OpenAI session.

module SocketBudget {
  import C = CommandDelivery
  import T = ToolDispatch

  datatype Session = NoSession | Held(connected: bool)

  datatype Actor = Actor(session: Session, child: bool, status: T.Status)

  datatype State = State(used: nat, max: nat, actors: map<int, Actor>)

  datatype RotateOutcome = RotatedOk | StoreError | OwnershipLost

  // How far a terminal event gets: its thread row is not saved, or its result
  // is not published once the row is, or neither fails.
  datatype TurnOutcome = NotSaved | NotPublished | Published

  // How far giving up on a thread gets: its row is not loaded, or not found;
  // its ownership is not released or its row not saved; or neither.
  datatype GiveUpOutcome = NotLoaded | NotStored | Stored

  // connects says whether dialling would succeed; current whether a lost lease
  // is of the generation the actor still believes in; saved whether the thread
  // row is.
  datatype Op =
    | GetActor(id: int, child: bool)
    | BeginTurn(id: int, connects: bool)
    | Reconnect(id: int, connects: bool)
    | ConnectionDrops(id: int)
    | RotateSocket(id: int, connects: bool, outcome: RotateOutcome, current: bool)
    | LeaseLost(id: int, current: bool)
    | EndTurn(id: int, status: T.Status, oneShot: bool, turn: TurnOutcome)
    | RemoteError(id: int, saved: bool)
    | Cancel(id: int, saved: bool)
    | RetriesExhausted(id: int, reached: GiveUpOutcome)
    | MissingCheckpoint(id: int, saved: bool)
    | DisconnectIdle(id: int)
    | Close(id: int)

  predicate TerminalStatus(status: T.Status) {
    status in {T.Completed, T.Failed, T.Cancelled, T.Incomplete}
  }

  predicate SupportsIdleSocket(status: T.Status) {
    status in {T.Ready, T.WaitingTool, T.WaitingChildren}
  }

  predicate SelfDestructs(a: Actor) {
    a.child && TerminalStatus(a.status)
  }

  // ---------------------------------------------------------------------
  // Sessions and the counter
  // ---------------------------------------------------------------------

  function Put(s: State, id: int, a: Actor): State {
    s.(actors := s.actors[id := a])
  }

  function Release(s: State): State {
    if s.used > 0 then s.(used := s.used - 1) else s
  }

  // openFreshSession: a slot is taken only when the actor has no session yet,
  // and given back if dialling fails.
  function Open(s: State, id: int, connects: bool): (State, bool)
    requires id in s.actors
  {
    if s.actors[id].session != NoSession then (s, connects)
    else if s.used >= s.max then (s, false)
    else
      var reserved := s.(used := s.used + 1);
      if connects then (reserved, true) else (Release(reserved), false)
  }

  // closeAndRelease: the slot is given back only if no session is in place.
  function CloseOne(s: State, id: int): State
    requires id in s.actors
  {
    if s.actors[id].session == NoSession then Release(s) else s
  }

  function Reset(s: State, id: int): State
    requires id in s.actors
  {
    var a := s.actors[id];
    if a.session == NoSession then s else CloseOne(Put(s, id, a.(session := NoSession)), id)
  }

  // Swap a fresh session in and close the old one.
  function Swap(s: State, id: int): State
    requires id in s.actors
  {
    var a := s.actors[id];
    var swapped := Put(s, id, a.(session := Held(true)));
    if a.session == NoSession then swapped else CloseOne(swapped, id)
  }

  function Reconnected(s: State, id: int, connects: bool): State
    requires id in s.actors
  {
    var (dialled, ok) := Open(s, id, connects);
    if ok then Swap(dialled, id) else dialled
  }

  function WithStatus(s: State, id: int, status: T.Status): State
    requires id in s.actors
  {
    Put(s, id, s.actors[id].(status := status))
  }

  // The actor's goroutine ends: the service forgets it.
  function Forget(s: State, id: int): State {
    s.(actors := s.actors - {id})
  }

  function Retire(s: State, id: int): State
    requires id in s.actors
  {
    if SelfDestructs(s.actors[id]) then Forget(s, id) else s
  }

  function LoseLease(s: State, id: int, current: bool): State
    requires id in s.actors
  {
    if current then Forget(Reset(s, id), id) else s
  }

  function Rotate(s: State, id: int, connects: bool, outcome: RotateOutcome, current: bool): State
    requires id in s.actors
  {
    if !SupportsIdleSocket(s.actors[id].status) then s
    else
      var (dialled, ok) := Open(s, id, connects);
      if !ok then dialled
      else
        match outcome
        case RotatedOk => Swap(dialled, id)
        case StoreError => CloseOne(dialled, id)
        case OwnershipLost => LoseLease(CloseOne(dialled, id), id, current)
  }

  // A terminal child drops its session once its row is saved, a one-shot
  // thread once its result is published.
  function Finish(s: State, id: int, status: T.Status, oneShot: bool, turn: TurnOutcome): State
    requires id in s.actors
  {
    if turn == NotSaved then s
    else
      var s1 := WithStatus(s, id, status);
      if SelfDestructs(s1.actors[id]) || (oneShot && turn == Published) then Reset(s1, id) else s1
  }

  // The row is saved first; only then does the session go.
  function Stop(s: State, id: int, status: T.Status, saved: bool): State
    requires id in s.actors
  {
    if saved then Reset(WithStatus(s, id, status), id) else s
  }

  // The session goes once the row is loaded; the status follows only once it
  // is stored.
  function GiveUp(s: State, id: int, status: T.Status, outcome: GiveUpOutcome): State
    requires id in s.actors
  {
    match outcome
    case NotLoaded => s
    case NotStored => Reset(s, id)
    case Stored => WithStatus(Reset(s, id), id, status)
  }

  // A missing checkpoint is found on a thread already loaded.
  function CheckpointOutcome(saved: bool): GiveUpOutcome {
    if saved then Stored else NotStored
  }

  function Step(s: State, op: Op): State {
    if op.GetActor? then (if op.id in s.actors then s else Put(s, op.id, Actor(NoSession, op.child, T.New)))
    else if op.id !in s.actors then s
    else
      match op
      case BeginTurn(id, connects) =>
        var s1 := WithStatus(s, id, T.Running);
        if s1.actors[id].session == Held(true) then s1 else Reconnected(s1, id, connects)
      case Reconnect(id, connects) => if s.actors[id].status == T.Running then Reconnected(s, id, connects) else s
      case ConnectionDrops(id) =>
        if s.actors[id].session == NoSession then s else Put(s, id, s.actors[id].(session := Held(false)))
      case RotateSocket(id, connects, outcome, current) => Rotate(s, id, connects, outcome, current)
      case LeaseLost(id, current) => LoseLease(s, id, current)
      case EndTurn(id, status, oneShot, turn) => Retire(Finish(s, id, status, oneShot, turn), id)
      case RemoteError(id, saved) => Retire(Stop(s, id, T.Failed, saved), id)
      case Cancel(id, saved) => Retire(Stop(s, id, T.Cancelled, saved), id)
      case RetriesExhausted(id, outcome) => Retire(GiveUp(s, id, T.Failed, outcome), id)
      case MissingCheckpoint(id, saved) => Retire(GiveUp(s, id, T.Incomplete, CheckpointOutcome(saved)), id)
      case DisconnectIdle(id) => if SupportsIdleSocket(s.actors[id].status) then Reset(s, id) else s
      case Close(id) => Forget(Reset(s, id), id)
  }

  // ---------------------------------------------------------------------
  // The service and its actors, updated in place
  // ---------------------------------------------------------------------

  class WorkerService {
    var socketBudgetUsed: nat
    var socketBudgetMax: nat
    var actors: map<int, Actor>

    ghost function Contents(): State
      reads this
    {
      State(socketBudgetUsed, socketBudgetMax, actors)
    }

    method ReserveSocketSlot() returns (ok: bool)
      modifies this`socketBudgetUsed
      ensures ok <==> old(socketBudgetUsed) < socketBudgetMax
      ensures socketBudgetUsed == old(socketBudgetUsed) + (if ok then 1 else 0)
    {
      if socketBudgetUsed >= socketBudgetMax {
        return false;
      }
      socketBudgetUsed := socketBudgetUsed + 1;
      ok := true;
    }

    method ReleaseSocketSlot()
      modifies this`socketBudgetUsed
      ensures Contents() == Release(old(Contents()))
    {
      if socketBudgetUsed > 0 {
        socketBudgetUsed := socketBudgetUsed - 1;
      }
    }

    method OpenFreshSession(id: int, connects: bool) returns (ok: bool)
      requires id in actors
      modifies this`socketBudgetUsed
      ensures (Contents(), ok) == Open(old(Contents()), id, connects)
    {
      var alreadyHaveSession := actors[id].session != NoSession;
      if !alreadyHaveSession {
        var reserved := ReserveSocketSlot();
        if !reserved {
          return false;
        }
      }
      if !connects {
        if !alreadyHaveSession {
          ReleaseSocketSlot();
        }
        return false;
      }
      ok := true;
    }

    method CloseAndRelease(id: int)
      requires id in actors
      modifies this`socketBudgetUsed
      ensures Contents() == CloseOne(old(Contents()), id)
    {
      var hasReplacement := actors[id].session != NoSession;
      if !hasReplacement {
        ReleaseSocketSlot();
      }
    }

    method SwapSessionState(id: int) returns (previous: Session)
      requires id in actors
      modifies this`actors
      ensures previous == old(actors)[id].session
      ensures actors == old(actors)[id := old(actors)[id].(session := Held(true))]
    {
      previous := actors[id].session;
      actors := actors[id := actors[id].(session := Held(true))];
    }

    method ResetSession(id: int)
      requires id in actors
      modifies this
      ensures Contents() == Reset(old(Contents()), id)
    {
      var session := actors[id].session;
      if session != NoSession {
        actors := actors[id := actors[id].(session := NoSession)];
        CloseAndRelease(id);
      }
    }

    method ReconnectSession(id: int, connects: bool)
      requires id in actors
      modifies this
      ensures Contents() == Reconnected(old(Contents()), id, connects)
    {
      var ok := OpenFreshSession(id, connects);
      if !ok {
        return;
      }
      var oldSession := SwapSessionState(id);
      if oldSession != NoSession {
        CloseAndRelease(id);
      }
    }

    method HandleRotateSocket(id: int, connects: bool, outcome: RotateOutcome, current: bool)
      requires id in actors
      modifies this
      ensures Contents() == Rotate(old(Contents()), id, connects, outcome, current)
    {
      if !SupportsIdleSocket(actors[id].status) {
        return;
      }
      var ok := OpenFreshSession(id, connects);
      if !ok {
        return;
      }
      if outcome == StoreError {
        CloseAndRelease(id);
        return;
      }
      if outcome == OwnershipLost {
        CloseAndRelease(id);
        HandleLeaseLoss(id, current);
        return;
      }
      var oldSession := SwapSessionState(id);
      if oldSession != NoSession {
        CloseAndRelease(id);
      }
    }

    method HandleLeaseLoss(id: int, current: bool)
      requires id in actors
      modifies this
      ensures Contents() == LoseLease(old(Contents()), id, current)
    {
      if !current {
        return;
      }
      ResetSession(id);
      actors := actors - {id};
    }

    method FinishTurn(id: int, status: T.Status, oneShot: bool, turn: TurnOutcome)
      requires id in actors
      modifies this
      ensures Contents() == Retire(Finish(old(Contents()), id, status, oneShot, turn), id)
    {
      if turn != NotSaved {
        actors := actors[id := actors[id].(status := status)];
        if SelfDestructs(actors[id]) {
          ResetSession(id);
        }
        if oneShot && turn == Published {
          ResetSession(id);
        }
      }
      SelfDestruct(id);
    }

    // What a cancel and a remote error do to an actor.
    method StopThread(id: int, status: T.Status, saved: bool)
      requires id in actors
      modifies this
      ensures Contents() == Retire(Stop(old(Contents()), id, status, saved), id)
    {
      if saved {
        actors := actors[id := actors[id].(status := status)];
        ResetSession(id);
      }
      SelfDestruct(id);
    }

    // What exhausted retries and a missing checkpoint do to an actor.
    method GiveUpThread(id: int, status: T.Status, outcome: GiveUpOutcome)
      requires id in actors
      modifies this
      ensures Contents() == Retire(GiveUp(old(Contents()), id, status, outcome), id)
    {
      if outcome != NotLoaded {
        ResetSession(id);
        if outcome == Stored {
          actors := actors[id := actors[id].(status := status)];
        }
      }
      SelfDestruct(id);
    }

    // The end of an actor's loop turn.
    method SelfDestruct(id: int)
      requires id in actors
      modifies this`actors
      ensures Contents() == Retire(old(Contents()), id)
    {
      if SelfDestructs(actors[id]) {
        actors := actors - {id};
      }
    }

    method CloseActor(id: int)
      requires id in actors
      modifies this
      ensures Contents() == Forget(Reset(old(Contents()), id), id)
    {
      ResetSession(id);
      actors := actors - {id};
    }
  }

  // ---------------------------------------------------------------------
  // Conservation
  // ---------------------------------------------------------------------

  ghost function Holders(actors: map<int, Actor>): set<int> {
    set id | id in actors && actors[id].session != NoSession
  }

  ghost predicate Balanced(s: State) {
    s.used == |Holders(s.actors)| && s.used <= s.max
  }

  // No actor that is still there is a child that has ended.
  ghost predicate NoneEnded(s: State) {
    forall id :: id in s.actors ==> !SelfDestructs(s.actors[id])
  }

  // What each path does to the actors, without any counter: an actor gains a
  // session when dialling succeeds and it holds one already or fewer than max
  // actors do.
  ghost predicate MayOpen(s: State, id: int, connects: bool)
    requires id in s.actors
  {
    connects && (s.actors[id].session != NoSession || |Holders(s.actors)| < s.max)
  }

  lemma HoldersChange(actors: map<int, Actor>, id: int, a: Actor)
    requires id in actors
    ensures Holders(actors[id := a]) == if a.session != NoSession then Holders(actors) + {id} else Holders(actors) - {id}
    ensures id in Holders(actors) <==> actors[id].session != NoSession
  {
  }

  lemma HoldersForget(actors: map<int, Actor>, id: int)
    ensures Holders(actors - {id}) == Holders(actors) - {id}
  {
  }

  lemma ResetBalances(s: State, id: int)
    requires Balanced(s) && id in s.actors
    ensures Balanced(Reset(s, id))
    ensures Reset(s, id).actors == s.actors[id := s.actors[id].(session := NoSession)]
  {
    HoldersChange(s.actors, id, s.actors[id].(session := NoSession));
  }

  lemma StatusBalances(s: State, id: int, status: T.Status)
    requires Balanced(s) && id in s.actors
    ensures Balanced(WithStatus(s, id, status))
  {
    HoldersChange(s.actors, id, s.actors[id].(status := status));
    assert Holders(WithStatus(s, id, status).actors) == Holders(s.actors);
  }

  lemma ReconnectBalances(s: State, id: int, connects: bool)
    requires Balanced(s) && id in s.actors
    ensures Balanced(Reconnected(s, id, connects))
    ensures Reconnected(s, id, connects).actors
         == if MayOpen(s, id, connects) then s.actors[id := s.actors[id].(session := Held(true))] else s.actors
  {
    HoldersChange(s.actors, id, s.actors[id].(session := Held(true)));
    assert s.actors[id].session != NoSession ==> Holders(s.actors) + {id} == Holders(s.actors);
  }

  lemma ForgetBalances(s: State, id: int)
    requires Balanced(s) && id in s.actors && s.actors[id].session == NoSession
    ensures Balanced(Forget(s, id))
  {
    HoldersForget(s.actors, id);
    assert Holders(s.actors) - {id} == Holders(s.actors);
  }

  lemma RotateBalances(s: State, id: int, connects: bool, outcome: RotateOutcome, current: bool)
    requires Balanced(s) && id in s.actors
    ensures Balanced(Rotate(s, id, connects, outcome, current))
    ensures outcome == RotatedOk && SupportsIdleSocket(s.actors[id].status) ==>
      Rotate(s, id, connects, outcome, current).actors
      == if MayOpen(s, id, connects) then s.actors[id := s.actors[id].(session := Held(true))] else s.actors
    ensures outcome == StoreError ==> Rotate(s, id, connects, outcome, current) == s
    ensures outcome == OwnershipLost && SupportsIdleSocket(s.actors[id].status) ==>
      Rotate(s, id, connects, outcome, current).actors
      == if MayOpen(s, id, connects) && current then s.actors - {id} else s.actors
  {
    ReconnectBalances(s, id, connects);
    ResetBalances(s, id);
    ForgetBalances(Reset(s, id), id);
    assert Forget(Reset(s, id), id).actors == s.actors - {id};
  }

  lemma ClosingBalances(s: State, id: int)
    requires Balanced(s) && id in s.actors
    ensures Balanced(Reset(s, id)) && Balanced(Forget(Reset(s, id), id))
  {
    ResetBalances(s, id);
    ForgetBalances(Reset(s, id), id);
  }

  lemma DropBalances(s: State, id: int)
    requires Balanced(s) && id in s.actors && s.actors[id].session != NoSession
    ensures Balanced(Put(s, id, s.actors[id].(session := Held(false))))
  {
    HoldersChange(s.actors, id, s.actors[id].(session := Held(false)));
    assert Holders(s.actors) + {id} == Holders(s.actors);
  }

  lemma BeginTurnBalances(s: State, id: int, connects: bool)
    requires Balanced(s) && id in s.actors
    ensures Balanced(WithStatus(s, id, T.Running)) && Balanced(Reconnected(WithStatus(s, id, T.Running), id, connects))
  {
    StatusBalances(s, id, T.Running);
    ReconnectBalances(WithStatus(s, id, T.Running), id, connects);
  }

  lemma GetActorBalances(s: State, id: int, child: bool)
    requires Balanced(s) && id !in s.actors
    ensures Balanced(Put(s, id, Actor(NoSession, child, T.New)))
  {
    assert Holders(s.actors[id := Actor(NoSession, child, T.New)]) == Holders(s.actors);
  }

  lemma FinishBalances(s: State, id: int, status: T.Status, oneShot: bool, turn: TurnOutcome)
    requires Balanced(s) && NoneEnded(s) && id in s.actors
    ensures Balanced(Retire(Finish(s, id, status, oneShot, turn), id))
  {
    if turn != NotSaved {
      StatusBalances(s, id, status);
      var s1 := WithStatus(s, id, status);
      ResetBalances(s1, id);
      ForgetBalances(Reset(s1, id), id);
    }
  }

  lemma StopBalances(s: State, id: int, status: T.Status, saved: bool)
    requires Balanced(s) && NoneEnded(s) && id in s.actors
    ensures Balanced(Retire(Stop(s, id, status, saved), id))
  {
    if saved {
      StatusBalances(s, id, status);
      ClosingBalances(WithStatus(s, id, status), id);
    }
  }

  lemma GivingUpBalances(s: State, id: int, status: T.Status, outcome: GiveUpOutcome)
    requires Balanced(s) && NoneEnded(s) && id in s.actors
    ensures Balanced(Retire(GiveUp(s, id, status, outcome), id))
  {
    if outcome != NotLoaded {
      ResetBalances(s, id);
      StatusBalances(Reset(s, id), id, status);
      ForgetBalances(GiveUp(s, id, status, outcome), id);
    }
  }

  lemma StepBalances(s: State, op: Op)
    requires Balanced(s) && NoneEnded(s)
    ensures Balanced(Step(s, op))
  {
    if op.GetActor? {
      if op.id !in s.actors {
        GetActorBalances(s, op.id, op.child);
      }
    } else if op.id in s.actors {
      match op
      case BeginTurn(id, connects) => BeginTurnBalances(s, id, connects);
      case Reconnect(id, connects) => ReconnectBalances(s, id, connects);
      case ConnectionDrops(id) =>
        if s.actors[id].session != NoSession {
          DropBalances(s, id);
        }
      case RotateSocket(id, connects, outcome, current) => RotateBalances(s, id, connects, outcome, current);
      case LeaseLost(id, current) => ClosingBalances(s, id);
      case EndTurn(id, status, oneShot, turn) => FinishBalances(s, id, status, oneShot, turn);
      case RemoteError(id, saved) => StopBalances(s, id, T.Failed, saved);
      case Cancel(id, saved) => StopBalances(s, id, T.Cancelled, saved);
      case RetriesExhausted(id, outcome) => GivingUpBalances(s, id, T.Failed, outcome);
      case MissingCheckpoint(id, saved) => GivingUpBalances(s, id, T.Incomplete, CheckpointOutcome(saved));
      case DisconnectIdle(id) => ClosingBalances(s, id);
      case Close(id) => ClosingBalances(s, id);
    }
  }

  ghost predicate SameActor(s: State, t: State, id: int) {
    (id in t.actors <==> id in s.actors) && (id in s.actors ==> t.actors[id] == s.actors[id])
  }

  lemma ResettingTouchesOne(s: State, id: int, other: int, status: T.Status)
    requires id in s.actors && other != id
    ensures SameActor(s, Reset(s, id), other) && SameActor(s, WithStatus(s, id, status), other)
    ensures SameActor(s, Reset(WithStatus(s, id, status), id), other) && SameActor(s, WithStatus(Reset(s, id), id, status), other)
  {
  }

  lemma ConnectingTouchesOne(s: State, id: int, other: int, connects: bool)
    requires id in s.actors && other != id
    ensures SameActor(s, Reconnected(s, id, connects), other)
  {
  }

  lemma RotatingTouchesOne(s: State, id: int, other: int, connects: bool, outcome: RotateOutcome, current: bool)
    requires id in s.actors && other != id
    ensures SameActor(s, Rotate(s, id, connects, outcome, current), other)
  {
  }

  lemma OtherIsUntouched(s: State, op: Op, other: int)
    requires other != op.id
    ensures SameActor(s, Step(s, op), other)
  {
    if op.id in s.actors {
      match op
      case GetActor(_, _) =>
      case BeginTurn(id, connects) => ConnectingTouchesOne(WithStatus(s, id, T.Running), id, other, connects);
      case Reconnect(id, connects) => ConnectingTouchesOne(s, id, other, connects);
      case ConnectionDrops(_) =>
      case RotateSocket(id, connects, outcome, current) => RotatingTouchesOne(s, id, other, connects, outcome, current);
      case LeaseLost(id, _) => ResettingTouchesOne(s, id, other, T.Failed);
      case EndTurn(id, status, _, _) => ResettingTouchesOne(s, id, other, status);
      case RemoteError(id, _) => ResettingTouchesOne(s, id, other, T.Failed);
      case Cancel(id, _) => ResettingTouchesOne(s, id, other, T.Cancelled);
      case RetriesExhausted(id, _) => ResettingTouchesOne(s, id, other, T.Failed);
      case MissingCheckpoint(id, _) => ResettingTouchesOne(s, id, other, T.Incomplete);
      case DisconnectIdle(id) => ResettingTouchesOne(s, id, other, T.Failed);
      case Close(id) => ResettingTouchesOne(s, id, other, T.Failed);
    }
  }

  lemma EndedActorLeaves(s: State, op: Op)
    requires NoneEnded(s) && op.id in Step(s, op).actors
    ensures !SelfDestructs(Step(s, op).actors[op.id])
  {
  }

  lemma EndedActorsLeave(s: State, op: Op)
    requires NoneEnded(s)
    ensures NoneEnded(Step(s, op))
  {
    forall id | id in Step(s, op).actors
      ensures !SelfDestructs(Step(s, op).actors[id])
    {
      if id == op.id {
        EndedActorLeaves(s, op);
      } else {
        OtherIsUntouched(s, op, id);
      }
    }
  }

  lemma MaxIsFixed(s: State, op: Op)
    ensures Step(s, op).max == s.max
  {
  }

  ghost function At(s: State, ops: seq<Op>, n: nat): State
    requires n <= |ops|
  {
    if n == 0 then s else Step(At(s, ops, n - 1), ops[n - 1])
  }

  // Over every sequence of operations on any number of actors, the slots in
  // use are exactly the actors that hold a session, and never exceed the
  // maximum. Actors that end on their own give their slot back first.
  lemma {:induction false} BudgetConserved(s: State, ops: seq<Op>, n: nat)
    requires Balanced(s) && NoneEnded(s) && n <= |ops|
    ensures NoneEnded(At(s, ops, n)) && At(s, ops, n).used == |Holders(At(s, ops, n).actors)|
    ensures At(s, ops, n).used <= At(s, ops, n).max == s.max
  {
    if n > 0 {
      BudgetConserved(s, ops, n - 1);
      StepBalances(At(s, ops, n - 1), ops[n - 1]);
      EndedActorsLeave(At(s, ops, n - 1), ops[n - 1]);
      MaxIsFixed(At(s, ops, n - 1), ops[n - 1]);
    }
  }

  // An actor that already holds a session can swap it even at the ceiling,
  // and the swap takes no second slot.
  lemma HolderSwapsAtTheCeiling(s: State, id: int)
    requires Balanced(s) && s.used == s.max && id in s.actors && s.actors[id].session != NoSession
    ensures Reconnected(s, id, true).actors[id].session == Held(true)
    ensures Reconnected(s, id, true).used == s.used
    ensures SupportsIdleSocket(s.actors[id].status) ==>
      Rotate(s, id, true, RotatedOk, true).actors[id].session == Held(true) && Rotate(s, id, true, RotatedOk, true).used == s.used
  {
    ReconnectBalances(s, id, true);
    RotateBalances(s, id, true, RotatedOk, true);
  }

  // The operations after which a thread has nothing left to do.
  predicate Ending(op: Op) {
    op.RemoteError? || op.Cancel? || op.RetriesExhausted? || op.MissingCheckpoint? || (op.EndTurn? && TerminalStatus(op.status))
  }

  // The first store call of such an operation succeeds: saving the row, or
  // for exhausted retries loading it. A missing checkpoint has none before
  // the session goes.
  predicate FirstCallSucceeds(op: Op)
    requires Ending(op)
  {
    match op
    case EndTurn(_, _, _, turn) => turn != NotSaved
    case RemoteError(_, saved) => saved
    case Cancel(_, saved) => saved
    case RetriesExhausted(_, outcome) => outcome != NotLoaded
    case _ => true
  }

  // The new status is on the thread row.
  predicate StatusStored(op: Op)
    requires Ending(op)
  {
    match op
    case RetriesExhausted(_, outcome) => outcome == Stored
    case MissingCheckpoint(_, saved) => saved
    case _ => FirstCallSucceeds(op)
  }

  predicate HoldsSlot(s: State, id: int) {
    id in s.actors && s.actors[id].session != NoSession
  }

  lemma HoldersOfTheRest(s: State, t: State, id: int)
    requires forall other :: other != id ==> SameActor(s, t, other)
    requires !HoldsSlot(t, id)
    ensures Holders(t.actors) == Holders(s.actors) - {id}
  {
    forall other
      ensures other in Holders(t.actors) <==> other in Holders(s.actors) - {id}
    {
      assert other != id ==> SameActor(s, t, other);
    }
  }

  lemma EndingActor(s: State, op: Op)
    requires NoneEnded(s) && op.id in s.actors && s.actors[op.id].child && Ending(op)
    ensures FirstCallSucceeds(op) ==> !HoldsSlot(Step(s, op), op.id)
    ensures !FirstCallSucceeds(op) ==> Step(s, op) == s
    ensures op.id !in Step(s, op).actors <==> StatusStored(op)
  {
  }

  // After a finished turn, a remote error, a cancel, exhausted retries or a
  // missing checkpoint a child holds no slot exactly when it held none before
  // or the operation's first store call succeeded; then the other actors'
  // slots are what remains. It leaves the map exactly when its new status was
  // stored.
  lemma EndedChildHoldsNoSlotIff(s: State, op: Op)
    requires Balanced(s) && NoneEnded(s) && op.id in s.actors && s.actors[op.id].child && Ending(op)
    ensures var after := Step(s, op);
      && (!HoldsSlot(after, op.id) <==> !HoldsSlot(s, op.id) || FirstCallSucceeds(op))
      && (FirstCallSucceeds(op) ==> after.used == |Holders(s.actors) - {op.id}|)
      && (!FirstCallSucceeds(op) ==> after.used == s.used)
      && (op.id !in after.actors <==> StatusStored(op))
  {
    EndingActor(s, op);
    if FirstCallSucceeds(op) {
      StepBalances(s, op);
      forall other | other != op.id
        ensures SameActor(s, Step(s, op), other)
      {
        OtherIsUntouched(s, op, other);
      }
      HoldersOfTheRest(s, Step(s, op), op.id);
    }
  }

  // A cancel, a terminal event or an error event that is not saved, and
  // retries exhausted while the thread cannot be loaded, leave a child its
  // session and its slot.
  lemma UnsavedEndKeepsTheSlot(status: T.Status)
    requires TerminalStatus(status)
    ensures var s := State(1, 1, map[5 := Actor(Held(true), true, T.Running)]);
      && Balanced(s) && NoneEnded(s)
      && forall op :: op in {Cancel(5, false), EndTurn(5, status, false, NotSaved), RemoteError(5, false), RetriesExhausted(5, NotLoaded)}
           ==> HoldsSlot(Step(s, op), 5) && Step(s, op).used == 1
  {
    var s := State(1, 1, map[5 := Actor(Held(true), true, T.Running)]);
    assert Holders(s.actors) == {5};
  }

  // The end of a turn, by status. A child that completed, failed, was
  // cancelled or stayed incomplete is gone with its session once its row is
  // saved, and its slot with it. With any other status, or unsaved, the actor
  // stays; it keeps its session unless it is one-shot and was published. A
  // root thread's actor always stays.
  lemma TurnEndsByStatus(s: State, id: int, status: T.Status, oneShot: bool, turn: TurnOutcome)
    requires Balanced(s) && NoneEnded(s) && id in s.actors
    ensures var after, done := Step(s, EndTurn(id, status, oneShot, turn)), status in {T.Completed, T.Failed, T.Cancelled, T.Incomplete};
      && (id !in after.actors <==> s.actors[id].child && done && turn != NotSaved)
      && (turn == NotSaved ==> after == s)
      && (turn != NotSaved && s.actors[id].child && done ==>
            && after.actors == s.actors - {id} && after.used == s.used - (if s.actors[id].session == NoSession then 0 else 1))
      && (turn != NotSaved && !(s.actors[id].child && done) ==>
            && after.actors == s.actors[id := Actor(
                 if oneShot && turn == Published then NoSession else s.actors[id].session, s.actors[id].child, status)]
            && after.used == s.used - (if oneShot && turn == Published && s.actors[id].session != NoSession then 1 else 0))
  {
    if s.actors[id].session != NoSession {
      assert id in Holders(s.actors);
    }
  }

  // A cancel, an error event, exhausted retries and a missing checkpoint, by
  // how far their store calls get.
  lemma ThreadEndsByOutcome(s: State, id: int, op: Op)
    requires Balanced(s) && NoneEnded(s) && id in s.actors && op.id == id
    requires op.RemoteError? || op.Cancel? || op.RetriesExhausted? || op.MissingCheckpoint?
    ensures var after, held := Step(s, op), s.actors[id].session != NoSession;
      var freed := (match op
                    case RemoteError(_, saved) => saved
                    case Cancel(_, saved) => saved
                    case RetriesExhausted(_, reached) => reached != NotLoaded
                    case _ => true);
      var status := (match op
                     case RemoteError(_, saved) => if saved then T.Failed else s.actors[id].status
                     case Cancel(_, saved) => if saved then T.Cancelled else s.actors[id].status
                     case RetriesExhausted(_, reached) => if reached == Stored then T.Failed else s.actors[id].status
                     case MissingCheckpoint(_, saved) => if saved then T.Incomplete else s.actors[id].status
                     case _ => s.actors[id].status);
      && after.used == s.used - (if freed && held then 1 else 0)
      && (id in after.actors ==>
            after.actors[id] == Actor(if freed then NoSession else s.actors[id].session, s.actors[id].child, status))
      && (id !in after.actors <==> s.actors[id].child && status != s.actors[id].status && status in {T.Failed, T.Cancelled, T.Incomplete})
  {
    if s.actors[id].session != NoSession {
      assert id in Holders(s.actors);
    }
  }

  // An idle socket is dropped, or rotated, on a thread that is ready or
  // waits for tools or children, and on no other.
  lemma IdleByStatus(s: State, id: int, connects: bool, outcome: RotateOutcome, current: bool)
    requires Balanced(s) && id in s.actors
    ensures var idle, a := s.actors[id].status in {T.Ready, T.WaitingTool, T.WaitingChildren}, s.actors[id];
      var dropped, rotated := Step(s, DisconnectIdle(id)), Step(s, RotateSocket(id, connects, outcome, current));
      && dropped.actors == (if idle then s.actors[id := a.(session := NoSession)] else s.actors)
      && dropped.used == s.used - (if idle && a.session != NoSession then 1 else 0)
      && (!idle ==> rotated == s)
      && (idle && !(connects && (a.session != NoSession || s.used < s.max)) ==> rotated == s)
      && (idle && connects && (a.session != NoSession || s.used < s.max) ==>
            rotated.actors == (match outcome
                               case RotatedOk => s.actors[id := a.(session := Held(true))]
                               case StoreError => s.actors
                               case OwnershipLost => if current then s.actors - {id} else s.actors))
  {
    RotateBalances(s, id, connects, outcome, current);
    ResetBalances(s, id);
    if s.actors[id].session != NoSession {
      assert id in Holders(s.actors);
    }
    assert s.actors[id := s.actors[id]] == s.actors;
  }

  // A turn begins on the connected session it has, or reconnects; a send that
  // fails reconnects on a running thread only; a new actor holds nothing; a
  // lost lease of the current generation, and closing, end an actor.
  lemma TurnBegins(s: State, id: int, connects: bool)
    requires Balanced(s) && id in s.actors
    ensures var a, after := s.actors[id], Step(s, BeginTurn(id, connects));
      var opens := connects && (a.session != NoSession || s.used < s.max);
      after.actors == s.actors[id := Actor(if opens then Held(true) else a.session, a.child, T.Running)]
    ensures Step(s, Reconnect(id, connects)).actors ==
      if s.actors[id].status == T.Running && connects && (s.actors[id].session != NoSession || s.used < s.max) then
        s.actors[id := Actor(Held(true), s.actors[id].child, T.Running)]
      else s.actors
    ensures Step(s, LeaseLost(id, false)) == s && Step(s, LeaseLost(id, true)) == Step(s, Close(id))
    ensures Step(s, Close(id)).actors == s.actors - {id}
    ensures Step(s, Close(id)).used == s.used - (if s.actors[id].session != NoSession then 1 else 0)
  {
    BeginTurnBalances(s, id, connects);
    StatusBalances(s, id, T.Running);
    ReconnectBalances(WithStatus(s, id, T.Running), id, connects);
    ResetBalances(s, id);
    if s.actors[id].session != NoSession {
      assert id in Holders(s.actors);
    }
  }

  // How the failing of a thread on a fifth delivery breaks off.
  function OutcomeOf(fault: C.StoreFault, found: bool, owned: bool): GiveUpOutcome {
    if fault == C.LoadFails || !found then NotLoaded
    else if fault == C.SaveFails || (owned && fault == C.ReleaseFails) then NotStored
    else Stored
  }

  // Both accounts of exhausted retries, of the command and of the socket,
  // agree on when the session goes and on the status the thread is left with.
  lemma ExhaustionAlike(s: State, id: int, c: C.State, threadId: int, worker: int, fault: C.StoreFault)
    requires NoneEnded(s) && id in s.actors && (c.session <==> HoldsSlot(s, id))
    requires threadId in c.threads ==> c.threads[threadId].status == s.actors[id].status
    ensures var found := threadId in c.threads;
      var owned := found && c.threads[threadId].owner == worker && c.threads[threadId].generation > 0;
      var failed, after := C.FailThread(c, threadId, worker, fault).0, Step(s, RetriesExhausted(id, OutcomeOf(fault, found, owned)));
      && (failed.session <==> HoldsSlot(after, id))
      && (found ==> failed.threads[threadId].status == if id in after.actors then after.actors[id].status else T.Failed)
  {
  }
}
