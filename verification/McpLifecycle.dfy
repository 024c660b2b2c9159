/**
 Opening and closing gateway MCP sessions, as a state machine whose steps run from one `await` to
 the next. Connects of one slot exclude each other by a lock; disconnects take no lock.
*/
module McpLifecycle {
  import opened Wrappers

  /** A session id and a connection name: what a lock and an open session belong to. */
  datatype Slot = Slot(sessionId: string, name: string)

  type TaskId = nat
  type ActorId = nat

  datatype Phase = Starting | Live | Stopped

  /** Where a request is suspended, with the runner tasks it knows about. */
  datatype Pc =
    | Waiting(slot: Slot, force: bool)                     // for the connect lock
    | Probing(slot: Slot)                                  // list_tools on the existing session
    | Authorising(slot: Slot)                              // access token and gateway URL
    | Opening(slot: Slot, task: TaskId)                    // the runner's ready event
    | Announcing(slot: Slot, task: TaskId)                 // the connect hook
    | Aborting(slot: Slot, task: TaskId)                   // stop_mcp_task after a failure
    | Retiring(slot: Slot, prior: TaskId)                    // the disconnect hook for a swapped-out session
    | Closing(slot: Slot, prior: TaskId)                     // closing the swapped-out session
    | Listing(slot: Slot)                                  // list_tools on the new session
    | Detaching(slot: Slot, task: TaskId, reconnect: bool) // the disconnect hook for a popped session
    | Detached(slot: Slot, task: TaskId, again: bool)      // closing the popped session

  datatype State = State(
    sessions: map<Slot, TaskId>,
    registered: set<Slot>,
    locks: map<Slot, ActorId>,
    tasks: map<TaskId, Phase>,
    closes: map<TaskId, nat>,
    actors: map<ActorId, Pc>)

  function Initial(): State {
    State(map[], {}, map[], map[], map[], map[])
  }

  datatype Step =
    | StartConnect(actor: ActorId, slot: Slot)
    | StartDisconnect(actor: ActorId, slot: Slot)
    | StartReconnect(actor: ActorId, slot: Slot)
    | Acquire(actor: ActorId, known: bool)
    | Probe(actor: ActorId, alive: bool, hookOk: bool)
    | Authorise(actor: ActorId, granted: bool, task: TaskId)
    | RunnerReady(task: TaskId)
    | RunnerFails(task: TaskId)
    | Open(actor: ActorId, ok: bool)
    | Announce(actor: ActorId, ok: bool)
    | Aborted(actor: ActorId)
    | Retire(actor: ActorId, hookOk: bool)
    | Closed(actor: ActorId)
    | Listed(actor: ActorId)
    | Detach(actor: ActorId, hookOk: bool)
    | DetachDone(actor: ActorId)

  predicate Enabled(s: State, step: Step) {
    match step
    case StartConnect(a, _) => a !in s.actors
    case StartDisconnect(a, _) => a !in s.actors
    case StartReconnect(a, _) => a !in s.actors
    case Acquire(a, _) => a in s.actors && s.actors[a].Waiting? && s.actors[a].slot !in s.locks
    case Probe(a, _, _) => a in s.actors && s.actors[a].Probing?
    case Authorise(a, _, task) => a in s.actors && s.actors[a].Authorising? && task !in s.tasks
    case RunnerReady(t) => t in s.tasks && s.tasks[t] == Starting
    case RunnerFails(t) => t in s.tasks && s.tasks[t] == Starting
    case Open(a, ok) => a in s.actors && s.actors[a].Opening?
                        && (ok ==> s.actors[a].task in s.tasks && s.tasks[s.actors[a].task] == Live)
    case Announce(a, _) => a in s.actors && s.actors[a].Announcing?
    case Aborted(a) => a in s.actors && s.actors[a].Aborting?
    case Retire(a, _) => a in s.actors && s.actors[a].Retiring?
    case Closed(a) => a in s.actors && s.actors[a].Closing?
    case Listed(a) => a in s.actors && s.actors[a].Listing?
    case Detach(a, _) => a in s.actors && s.actors[a].Detaching?
    case DetachDone(a) => a in s.actors && s.actors[a].Detached?
  }

  function Goto(s: State, a: ActorId, pc: Pc): State {
    s.(actors := s.actors[a := pc])
  }

  function Finish(s: State, a: ActorId): State {
    s.(actors := s.actors - {a})
  }

  /** Leaving the `async with` block. */
  function Release(s: State, a: ActorId): State
    requires a in s.actors
  {
    Finish(s.(locks := s.locks - {s.actors[a].slot}), a)
  }

  /** Asking a task to stop; every request is counted. */
  function RequestStop(s: State, t: TaskId): State {
    s.(closes := s.closes[t := (if t in s.closes then s.closes[t] else 0) + 1])
  }

  function SetPhase(s: State, t: TaskId, phase: Phase): State {
    s.(tasks := s.tasks[t := phase])
  }

  /** Popping a session and going on to its disconnect hook; without a session there is nothing to do. */
  function Pop(s: State, a: ActorId, slot: Slot, reconnect: bool): State
    requires slot in s.sessions
  {
    Goto(s.(sessions := s.sessions - {slot}), a, Detaching(slot, s.sessions[slot], reconnect))
  }

  /** Inside the lock: a live session is reused unless a refresh is forced. */
  function Enter(s: State, a: ActorId, slot: Slot, force: bool, known: bool): State
    requires a in s.actors
  {
    if !known then Finish(s, a)
    else
      var locked := s.(locks := s.locks[slot := a]);
      if !force && slot in s.sessions then Goto(locked, a, Probing(slot)) else Goto(locked, a, Authorising(slot))
  }

  /** The disconnect hook forgets the connection's tools by name. */
  function Unregister(s: State, slot: Slot, hookOk: bool): State {
    if hookOk then s.(registered := s.registered - {slot}) else s
  }

  /** A disconnect, or the disconnecting half of a reconnect. */
  function Drop(s: State, a: ActorId, slot: Slot, reconnect: bool): State {
    if slot in s.sessions then Pop(s, a, slot, reconnect)
    else if reconnect then Goto(s, a, Waiting(slot, true))
    else s
  }

  /** The existing session answered, and its tools are registered again; or it is stale. */
  function Probed(s: State, a: ActorId, alive: bool, hookOk: bool): State
    requires a in s.actors
  {
    var slot := s.actors[a].slot;
    if !alive then Goto(s, a, Authorising(slot))
    else Release(if hookOk then s.(registered := s.registered + {slot}) else s, a)
  }

  /** With a token and a URL the runner task is created. */
  function Authorised(s: State, a: ActorId, granted: bool, task: TaskId): State
    requires a in s.actors
  {
    if granted then
      Goto(s.(tasks := s.tasks[task := Starting], closes := s.closes[task := 0]), a, Opening(s.actors[a].slot, task))
    else Release(s, a)
  }

  function Opened(s: State, a: ActorId, ok: bool): State
    requires a in s.actors && s.actors[a].Opening?
  {
    var slot, t := s.actors[a].slot, s.actors[a].task;
    if ok then Goto(s, a, Announcing(slot, t)) else Goto(RequestStop(s, t), a, Aborting(slot, t))
  }

  /** After the connect hook the new session is swapped in; a session found there is retired. */
  function Announced(s: State, a: ActorId, ok: bool): State
    requires a in s.actors && s.actors[a].Announcing?
  {
    var slot, t := s.actors[a].slot, s.actors[a].task;
    if !ok then Goto(RequestStop(s, t), a, Aborting(slot, t))
    else
      Goto(s.(sessions := s.sessions[slot := t], registered := s.registered + {slot}), a,
           if slot in s.sessions then Retiring(slot, s.sessions[slot]) else Listing(slot))
  }

  function AbortDone(s: State, a: ActorId): State
    requires a in s.actors && s.actors[a].Aborting?
  {
    Release(SetPhase(s, s.actors[a].task, Stopped), a)
  }

  function Retired(s: State, a: ActorId, hookOk: bool): State
    requires a in s.actors && s.actors[a].Retiring?
  {
    var slot, t := s.actors[a].slot, s.actors[a].prior;
    Goto(RequestStop(Unregister(s, slot, hookOk), t), a, Closing(slot, t))
  }

  function CloseDone(s: State, a: ActorId): State
    requires a in s.actors && s.actors[a].Closing?
  {
    Goto(SetPhase(s, s.actors[a].prior, Stopped), a, Listing(s.actors[a].slot))
  }

  /** A disconnect whose hook fails still closes the session, but does not go on to reconnect. */
  function HookDone(s: State, a: ActorId, hookOk: bool): State
    requires a in s.actors && s.actors[a].Detaching?
  {
    var slot, t := s.actors[a].slot, s.actors[a].task;
    Goto(RequestStop(Unregister(s, slot, hookOk), t), a, Detached(slot, t, s.actors[a].reconnect && hookOk))
  }

  function DetachFinished(s: State, a: ActorId): State
    requires a in s.actors && s.actors[a].Detached?
  {
    var stopped := SetPhase(s, s.actors[a].task, Stopped);
    if s.actors[a].again then Goto(stopped, a, Waiting(s.actors[a].slot, true)) else Finish(stopped, a)
  }

  function Apply(s: State, step: Step): State
    requires Enabled(s, step)
  {
    match step
    case StartConnect(a, slot) => Goto(s, a, Waiting(slot, false))
    case StartDisconnect(a, slot) => Drop(s, a, slot, false)
    case StartReconnect(a, slot) => Drop(s, a, slot, true)
    case Acquire(a, known) => Enter(s, a, s.actors[a].slot, s.actors[a].force, known)
    case Probe(a, alive, hookOk) => Probed(s, a, alive, hookOk)
    case Authorise(a, granted, task) => Authorised(s, a, granted, task)
    case RunnerReady(t) => SetPhase(s, t, Live)
    case RunnerFails(t) => SetPhase(s, t, Stopped)
    case Open(a, ok) => Opened(s, a, ok)
    case Announce(a, ok) => Announced(s, a, ok)
    case Aborted(a) => AbortDone(s, a)
    case Retire(a, hookOk) => Retired(s, a, hookOk)
    case Closed(a) => CloseDone(s, a)
    case Listed(a) => Release(s, a)
    case Detach(a, hookOk) => HookDone(s, a, hookOk)
    case DetachDone(a) => DetachFinished(s, a)
  }

  // ---------------------------------------------------------------- ownership

  /** The task an actor is responsible for. */
  function Owned(pc: Pc): Option<TaskId> {
    match pc
    case Opening(_, t) => Some(t)
    case Announcing(_, t) => Some(t)
    case Aborting(_, t) => Some(t)
    case Retiring(_, t) => Some(t)
    case Closing(_, t) => Some(t)
    case Detaching(_, t, _) => Some(t)
    case Detached(_, t, _) => Some(t)
    case _ => None
  }

  /** The actor has asked its task to stop. */
  predicate Stopping(pc: Pc) {
    pc.Aborting? || pc.Closing? || pc.Detached?
  }

  /** The actor's task is known to have come up. */
  predicate Running(pc: Pc) {
    pc.Announcing? || pc.Retiring? || pc.Detaching?
  }

  predicate HoldsLock(pc: Pc) {
    !pc.Waiting? && !pc.Detaching? && !pc.Detached?
  }

  /** Every started task has a stop count. */
  ghost predicate Counted(s: State) {
    forall t :: t in s.tasks <==> t in s.closes
  }

  /** A session's task runs and nobody has asked it to stop. */
  ghost predicate SessionsLive(s: State) {
    forall slot | slot in s.sessions ::
      var t := s.sessions[slot];
      t in s.tasks && t in s.closes && s.tasks[t] == Live && s.closes[t] == 0
  }

  /** The task has been asked to stop once if the actor at `pc` is past that point, else never. */
  ghost predicate Fits(s: State, pc: Pc, t: TaskId) {
    && t in s.tasks && t in s.closes
    && s.closes[t] == (if Stopping(pc) then 1 else 0)
    && (Running(pc) ==> s.tasks[t] == Live)
  }

  ghost predicate ActorsFit(s: State) {
    forall a | a in s.actors && Owned(s.actors[a]).Some? :: Fits(s, s.actors[a], Owned(s.actors[a]).value)
  }

  /** No task has two owners. */
  ghost predicate OneOwner(s: State) {
    && (forall a, b | a in s.actors && b in s.actors && Owned(s.actors[a]).Some?
                      && Owned(s.actors[a]) == Owned(s.actors[b]) :: a == b)
    && (forall p, q | p in s.sessions && q in s.sessions && s.sessions[p] == s.sessions[q] :: p == q)
    && (forall a, p | a in s.actors && p in s.sessions :: Owned(s.actors[a]) != Some(s.sessions[p]))
  }

  ghost predicate HasOwner(s: State, t: TaskId) {
    || (exists a :: a in s.actors && Owned(s.actors[a]) == Some(t))
    || (exists slot :: slot in s.sessions && s.sessions[slot] == t)
  }

  /** A task without an owner was stopped, by exactly one request. */
  ghost predicate OrphansDisposed(s: State) {
    forall t | t in s.tasks && t in s.closes :: HasOwner(s, t) || (s.tasks[t] == Stopped && s.closes[t] == 1)
  }

  ghost predicate OwnersFit(s: State) {
    Counted(s) && SessionsLive(s) && ActorsFit(s) && OneOwner(s)
  }

  ghost predicate TasksAccounted(s: State) {
    OwnersFit(s) && OrphansDisposed(s)
  }

  ghost predicate LocksHeld(s: State) {
    && (forall a | a in s.actors && HoldsLock(s.actors[a]) ::
          s.actors[a].slot in s.locks && s.locks[s.actors[a].slot] == a)
    && (forall slot | slot in s.locks ::
          s.locks[slot] in s.actors && HoldsLock(s.actors[s.locks[slot]]) && s.actors[s.locks[slot]].slot == slot)
  }

  ghost predicate Inv(s: State) {
    TasksAccounted(s) && LocksHeld(s)
  }

  // ---------------------------------------------------------------- every step keeps the invariant

  ghost predicate Accounted(s: State, t: TaskId) {
    t in s.tasks && t in s.closes && (HasOwner(s, t) || (s.tasks[t] == Stopped && s.closes[t] == 1))
  }

  /** If the touched tasks are accounted for after a step of one actor, then all tasks are. */
  lemma OrphansFrame(s: State, u: State, a: ActorId, touched: set<TaskId>)
    requires OrphansDisposed(s) && Counted(s)
    requires forall b | b in s.actors && b != a :: b in u.actors && u.actors[b] == s.actors[b]
    requires a in s.actors && Owned(s.actors[a]).Some? ==> Owned(s.actors[a]).value in touched
    requires forall slot | slot in s.sessions && s.sessions[slot] !in touched ::
               slot in u.sessions && u.sessions[slot] == s.sessions[slot]
    requires forall t | t in u.tasks && t in u.closes && t !in touched ::
               t in s.tasks && t in s.closes && s.tasks[t] == u.tasks[t] && s.closes[t] == u.closes[t]
    requires forall t | t in touched :: Accounted(u, t)
    ensures OrphansDisposed(u)
  {
    forall t | t in u.tasks && t in u.closes && t !in touched
      ensures Accounted(u, t)
    {
      if HasOwner(s, t) {
        if b :| b in s.actors && Owned(s.actors[b]) == Some(t) {
          assert b in u.actors && Owned(u.actors[b]) == Some(t);
        } else {
          var slot :| slot in s.sessions && s.sessions[slot] == t;
          assert slot in u.sessions && u.sessions[slot] == t;
        }
      }
    }
  }

  /** Only actor `a` moves. */
  ghost predicate OthersStay(s: State, u: State, a: ActorId) {
    forall b | b != a :: (b in s.actors <==> b in u.actors) && (b in s.actors ==> u.actors[b] == s.actors[b])
  }

  /** A step of one actor that owns no task before or after, and touches none, changes nothing. */
  lemma IdleKeeps(s: State, u: State, a: ActorId)
    requires TasksAccounted(s)
    requires u.tasks == s.tasks && u.closes == s.closes && u.sessions == s.sessions
    requires OthersStay(s, u, a)
    requires a in s.actors ==> Owned(s.actors[a]).None?
    requires a in u.actors ==> Owned(u.actors[a]).None?
    ensures TasksAccounted(u)
  {}

  lemma PoppingFits(s: State, a: ActorId, slot: Slot, reconnect: bool)
    requires OwnersFit(s) && a !in s.actors && slot in s.sessions
    ensures var u := Pop(s, a, slot, reconnect); Counted(u) && SessionsLive(u) && ActorsFit(u)
  {}

  lemma PoppingHasOneOwner(s: State, a: ActorId, slot: Slot, reconnect: bool)
    requires OneOwner(s) && a !in s.actors && slot in s.sessions
    ensures OneOwner(Pop(s, a, slot, reconnect))
  {}

  lemma PoppingKeeps(s: State, a: ActorId, slot: Slot, reconnect: bool)
    requires TasksAccounted(s) && a !in s.actors && slot in s.sessions
    ensures TasksAccounted(Pop(s, a, slot, reconnect))
  {
    var u := Pop(s, a, slot, reconnect);
    PoppingFits(s, a, slot, reconnect);
    PoppingHasOneOwner(s, a, slot, reconnect);
    assert Owned(u.actors[a]) == Some(s.sessions[slot]);
    OrphansFrame(s, u, a, {s.sessions[slot]});
  }

  lemma SpawningFits(s: State, a: ActorId, task: TaskId)
    requires OwnersFit(s) && a in s.actors && s.actors[a].Authorising? && task !in s.tasks
    ensures var u := Authorised(s, a, true, task); Counted(u) && SessionsLive(u) && ActorsFit(u)
  {}

  lemma SpawningHasOneOwner(s: State, a: ActorId, task: TaskId)
    requires OwnersFit(s) && a in s.actors && s.actors[a].Authorising? && task !in s.tasks
    ensures OneOwner(Authorised(s, a, true, task))
  {}

  lemma SpawningKeeps(s: State, a: ActorId, task: TaskId)
    requires TasksAccounted(s) && a in s.actors && s.actors[a].Authorising? && task !in s.tasks
    ensures TasksAccounted(Authorised(s, a, true, task))
  {
    var u := Authorised(s, a, true, task);
    SpawningFits(s, a, task);
    SpawningHasOneOwner(s, a, task);
    assert Owned(u.actors[a]) == Some(task);
    OrphansFrame(s, u, a, {task});
  }

  lemma StartingKeeps(s: State, task: TaskId, phase: Phase)
    requires TasksAccounted(s) && task in s.tasks && s.tasks[task] == Phase.Starting
    ensures TasksAccounted(SetPhase(s, task, phase))
  {}

  /**
   A step of actor `a` that affects no task but its own, `t`: the actor goes on owning it, or lets
   go of it stopped.
  */
  ghost predicate OwnStep(s: State, u: State, a: ActorId, t: TaskId) {
    && a in s.actors && Owned(s.actors[a]) == Some(t)
    && u.sessions == s.sessions
    && OthersStay(s, u, a)
    && (forall r | r != t :: (r in s.tasks <==> r in u.tasks) && (r in s.tasks ==> u.tasks[r] == s.tasks[r]))
    && (forall r | r != t :: (r in s.closes <==> r in u.closes) && (r in s.closes ==> u.closes[r] == s.closes[r]))
    && t in u.tasks && t in u.closes
    && if a in u.actors && Owned(u.actors[a]).Some? then Owned(u.actors[a]) == Some(t) && Fits(u, u.actors[a], t)
       else u.tasks[t] == Stopped && u.closes[t] == 1
  }

  lemma OwnStepFits(s: State, u: State, a: ActorId, t: TaskId)
    requires OwnersFit(s) && OwnStep(s, u, a, t)
    ensures Counted(u) && SessionsLive(u) && ActorsFit(u)
  {}

  lemma OwnStepHasOneOwner(s: State, u: State, a: ActorId, t: TaskId)
    requires OneOwner(s) && OwnStep(s, u, a, t)
    ensures OneOwner(u)
  {}

  lemma OwnStepKeeps(s: State, u: State, a: ActorId, t: TaskId)
    requires TasksAccounted(s) && OwnStep(s, u, a, t)
    ensures TasksAccounted(u)
  {
    OwnStepFits(s, u, a, t);
    OwnStepHasOneOwner(s, u, a, t);
    OrphansFrame(s, u, a, {t});
  }

  lemma OpeningIsOwn(s: State, a: ActorId, ok: bool)
    requires a in s.actors && s.actors[a].Opening? && Fits(s, s.actors[a], s.actors[a].task)
    requires ok ==> s.actors[a].task in s.tasks && s.tasks[s.actors[a].task] == Live
    ensures OwnStep(s, Opened(s, a, ok), a, s.actors[a].task)
  {}

  lemma OpeningKeeps(s: State, a: ActorId, ok: bool)
    requires TasksAccounted(s) && a in s.actors && s.actors[a].Opening?
    requires ok ==> s.actors[a].task in s.tasks && s.tasks[s.actors[a].task] == Live
    ensures TasksAccounted(Opened(s, a, ok))
  {
    OpeningIsOwn(s, a, ok);
    OwnStepKeeps(s, Opened(s, a, ok), a, s.actors[a].task);
  }

  lemma FailingIsOwn(s: State, a: ActorId)
    requires a in s.actors && s.actors[a].Announcing? && Fits(s, s.actors[a], s.actors[a].task)
    ensures OwnStep(s, Announced(s, a, false), a, s.actors[a].task)
  {}

  lemma FailingKeeps(s: State, a: ActorId)
    requires TasksAccounted(s) && a in s.actors && s.actors[a].Announcing?
    ensures TasksAccounted(Announced(s, a, false))
  {
    FailingIsOwn(s, a);
    OwnStepKeeps(s, Announced(s, a, false), a, s.actors[a].task);
  }

  lemma AbortingIsOwn(s: State, a: ActorId)
    requires a in s.actors && s.actors[a].Aborting? && Fits(s, s.actors[a], s.actors[a].task)
    ensures OwnStep(s, AbortDone(s, a), a, s.actors[a].task)
  {}

  lemma AbortingKeeps(s: State, a: ActorId)
    requires TasksAccounted(s) && a in s.actors && s.actors[a].Aborting?
    ensures TasksAccounted(AbortDone(s, a))
  {
    AbortingIsOwn(s, a);
    OwnStepKeeps(s, AbortDone(s, a), a, s.actors[a].task);
  }

  lemma RetiringIsOwn(s: State, a: ActorId, hookOk: bool)
    requires a in s.actors && s.actors[a].Retiring? && Fits(s, s.actors[a], s.actors[a].prior)
    ensures OwnStep(s, Retired(s, a, hookOk), a, s.actors[a].prior)
  {}

  lemma RetiringKeeps(s: State, a: ActorId, hookOk: bool)
    requires TasksAccounted(s) && a in s.actors && s.actors[a].Retiring?
    ensures TasksAccounted(Retired(s, a, hookOk))
  {
    RetiringIsOwn(s, a, hookOk);
    OwnStepKeeps(s, Retired(s, a, hookOk), a, s.actors[a].prior);
  }

  lemma ClosingIsOwn(s: State, a: ActorId)
    requires a in s.actors && s.actors[a].Closing? && Fits(s, s.actors[a], s.actors[a].prior)
    ensures OwnStep(s, CloseDone(s, a), a, s.actors[a].prior)
  {}

  lemma ClosingKeeps(s: State, a: ActorId)
    requires TasksAccounted(s) && a in s.actors && s.actors[a].Closing?
    ensures TasksAccounted(CloseDone(s, a))
  {
    ClosingIsOwn(s, a);
    OwnStepKeeps(s, CloseDone(s, a), a, s.actors[a].prior);
  }

  lemma DetachingIsOwn(s: State, a: ActorId, hookOk: bool)
    requires a in s.actors && s.actors[a].Detaching? && Fits(s, s.actors[a], s.actors[a].task)
    ensures OwnStep(s, HookDone(s, a, hookOk), a, s.actors[a].task)
  {}

  lemma DetachingKeeps(s: State, a: ActorId, hookOk: bool)
    requires TasksAccounted(s) && a in s.actors && s.actors[a].Detaching?
    ensures TasksAccounted(HookDone(s, a, hookOk))
  {
    DetachingIsOwn(s, a, hookOk);
    OwnStepKeeps(s, HookDone(s, a, hookOk), a, s.actors[a].task);
  }

  lemma FinishingIsOwn(s: State, a: ActorId)
    requires a in s.actors && s.actors[a].Detached? && Fits(s, s.actors[a], s.actors[a].task)
    ensures OwnStep(s, DetachFinished(s, a), a, s.actors[a].task)
  {}

  lemma FinishingKeeps(s: State, a: ActorId)
    requires TasksAccounted(s) && a in s.actors && s.actors[a].Detached?
    ensures TasksAccounted(DetachFinished(s, a))
  {
    FinishingIsOwn(s, a);
    OwnStepKeeps(s, DetachFinished(s, a), a, s.actors[a].task);
  }

  lemma InstallingFits(s: State, a: ActorId)
    requires OwnersFit(s) && a in s.actors && s.actors[a].Announcing? && s.actors[a].slot !in s.sessions
    ensures var u := Announced(s, a, true); Counted(u) && SessionsLive(u) && ActorsFit(u)
  {}

  lemma InstallingHasOneOwner(s: State, a: ActorId)
    requires OneOwner(s) && a in s.actors && s.actors[a].Announcing? && s.actors[a].slot !in s.sessions
    ensures OneOwner(Announced(s, a, true))
  {}

  lemma InstallingKeeps(s: State, a: ActorId)
    requires TasksAccounted(s) && a in s.actors && s.actors[a].Announcing? && s.actors[a].slot !in s.sessions
    ensures TasksAccounted(Announced(s, a, true))
  {
    var u := Announced(s, a, true);
    InstallingFits(s, a);
    InstallingHasOneOwner(s, a);
    assert u.sessions[s.actors[a].slot] == s.actors[a].task;
    OrphansFrame(s, u, a, {s.actors[a].task});
  }

  lemma SwappingFits(s: State, a: ActorId)
    requires OwnersFit(s) && a in s.actors && s.actors[a].Announcing? && s.actors[a].slot in s.sessions
    ensures var u := Announced(s, a, true); Counted(u) && SessionsLive(u) && ActorsFit(u)
  {}

  lemma SwappingHasOneOwner(s: State, a: ActorId)
    requires OneOwner(s) && a in s.actors && s.actors[a].Announcing? && s.actors[a].slot in s.sessions
    ensures OneOwner(Announced(s, a, true))
  {}

  lemma SwappingKeeps(s: State, a: ActorId)
    requires TasksAccounted(s) && a in s.actors && s.actors[a].Announcing? && s.actors[a].slot in s.sessions
    ensures TasksAccounted(Announced(s, a, true))
  {
    var u := Announced(s, a, true);
    SwappingFits(s, a);
    SwappingHasOneOwner(s, a);
    var slot := s.actors[a].slot;
    assert u.sessions[slot] == s.actors[a].task && Owned(u.actors[a]) == Some(s.sessions[slot]);
    OrphansFrame(s, u, a, {s.actors[a].task, s.sessions[slot]});
  }

  lemma AnnounceKeepsTasks(s: State, a: ActorId, ok: bool)
    requires TasksAccounted(s) && a in s.actors && s.actors[a].Announcing?
    ensures TasksAccounted(Announced(s, a, ok))
  {
    if !ok {
      FailingKeeps(s, a);
    } else if s.actors[a].slot in s.sessions {
      SwappingKeeps(s, a);
    } else {
      InstallingKeeps(s, a);
    }
  }

  lemma EnteringKeepsTasks(s: State, a: ActorId, known: bool)
    requires TasksAccounted(s) && a in s.actors && s.actors[a].Waiting?
    ensures TasksAccounted(Enter(s, a, s.actors[a].slot, s.actors[a].force, known))
  {
    IdleKeeps(s, Enter(s, a, s.actors[a].slot, s.actors[a].force, known), a);
  }

  lemma ProbingKeepsTasks(s: State, a: ActorId, alive: bool, hookOk: bool)
    requires TasksAccounted(s) && a in s.actors && s.actors[a].Probing?
    ensures TasksAccounted(Probed(s, a, alive, hookOk))
  {
    IdleKeeps(s, Probed(s, a, alive, hookOk), a);
  }

  lemma LeavingKeepsTasks(s: State, a: ActorId)
    requires TasksAccounted(s) && a in s.actors && Owned(s.actors[a]).None?
    ensures TasksAccounted(Release(s, a))
  {
    IdleKeeps(s, Release(s, a), a);
  }

  lemma RequestKeepsTasks(s: State, a: ActorId, slot: Slot, reconnect: bool)
    requires TasksAccounted(s) && a !in s.actors
    ensures TasksAccounted(Drop(s, a, slot, reconnect))
    ensures TasksAccounted(Goto(s, a, Waiting(slot, false)))
  {
    IdleKeeps(s, Goto(s, a, Waiting(slot, false)), a);
    if slot in s.sessions {
      PoppingKeeps(s, a, slot, reconnect);
    } else {
      IdleKeeps(s, Drop(s, a, slot, reconnect), a);
    }
  }

  /** Every step of every actor and every runner keeps the tasks accounted for. */
  lemma StepKeepsTasks(s: State, step: Step)
    requires TasksAccounted(s) && Enabled(s, step)
    ensures TasksAccounted(Apply(s, step))
  {
    match step
    case StartConnect(a, slot) => RequestKeepsTasks(s, a, slot, false);
    case StartDisconnect(a, slot) => RequestKeepsTasks(s, a, slot, false);
    case StartReconnect(a, slot) => RequestKeepsTasks(s, a, slot, true);
    case Acquire(a, known) => EnteringKeepsTasks(s, a, known);
    case Probe(a, alive, hookOk) => ProbingKeepsTasks(s, a, alive, hookOk);
    case Authorise(a, granted, task) =>
      if granted {
        SpawningKeeps(s, a, task);
      } else {
        LeavingKeepsTasks(s, a);
      }
    case RunnerReady(t) => StartingKeeps(s, t, Live);
    case RunnerFails(t) => StartingKeeps(s, t, Stopped);
    case Open(a, ok) => OpeningKeeps(s, a, ok);
    case Announce(a, ok) => AnnounceKeepsTasks(s, a, ok);
    case Aborted(a) => AbortingKeeps(s, a);
    case Retire(a, hookOk) => RetiringKeeps(s, a, hookOk);
    case Closed(a) => ClosingKeeps(s, a);
    case Listed(a) => LeavingKeepsTasks(s, a);
    case Detach(a, hookOk) => DetachingKeeps(s, a, hookOk);
    case DetachDone(a) => FinishingKeeps(s, a);
  }

  /** The lock that an actor's position says it holds. */
  ghost function LockOf(s: State, a: ActorId): Option<Slot> {
    if a in s.actors && HoldsLock(s.actors[a]) then Some(s.actors[a].slot) else None
  }

  /** A step of one actor that neither takes nor leaves a lock. */
  ghost predicate Steady(s: State, u: State, a: ActorId) {
    OthersStay(s, u, a) && LockOf(s, a) == LockOf(u, a) && u.locks == s.locks
  }

  lemma SteadyKeepsLocks(s: State, u: State, a: ActorId)
    requires LocksHeld(s) && Steady(s, u, a)
    ensures LocksHeld(u)
  {}

  lemma TakingKeepsLocks(s: State, a: ActorId, pc: Pc)
    requires LocksHeld(s) && a in s.actors && !HoldsLock(s.actors[a]) && HoldsLock(pc) && pc.slot !in s.locks
    ensures LocksHeld(Goto(s.(locks := s.locks[pc.slot := a]), a, pc))
  {}

  lemma LeavingKeepsLocks(s: State, a: ActorId)
    requires LocksHeld(s) && a in s.actors && HoldsLock(s.actors[a])
    ensures LocksHeld(Release(s, a))
  {}

  lemma EnteringKeepsLocks(s: State, a: ActorId, known: bool)
    requires LocksHeld(s) && a in s.actors && s.actors[a].Waiting? && s.actors[a].slot !in s.locks
    ensures LocksHeld(Enter(s, a, s.actors[a].slot, s.actors[a].force, known))
  {
    var slot := s.actors[a].slot;
    if known {
      TakingKeepsLocks(s, a, if !s.actors[a].force && slot in s.sessions then Probing(slot) else Authorising(slot));
    } else {
      SteadyKeepsLocks(s, Finish(s, a), a);
    }
  }

  lemma ProbingKeepsLocks(s: State, a: ActorId, alive: bool, hookOk: bool)
    requires LocksHeld(s) && a in s.actors && s.actors[a].Probing?
    ensures LocksHeld(Probed(s, a, alive, hookOk))
  {
    if alive {
      LeavingKeepsLocks(if hookOk then s.(registered := s.registered + {s.actors[a].slot}) else s, a);
    } else {
      SteadyKeepsLocks(s, Probed(s, a, alive, hookOk), a);
    }
  }

  lemma AuthorisingKeepsLocks(s: State, a: ActorId, granted: bool, task: TaskId)
    requires LocksHeld(s) && a in s.actors && s.actors[a].Authorising?
    ensures LocksHeld(Authorised(s, a, granted, task))
  {
    if granted {
      SteadyKeepsLocks(s, Authorised(s, a, granted, task), a);
    } else {
      LeavingKeepsLocks(s, a);
    }
  }

  lemma RequestKeepsLocks(s: State, a: ActorId, slot: Slot, reconnect: bool)
    requires LocksHeld(s) && a !in s.actors
    ensures LocksHeld(Drop(s, a, slot, reconnect))
    ensures LocksHeld(Goto(s, a, Waiting(slot, false)))
  {
    SteadyKeepsLocks(s, Drop(s, a, slot, reconnect), a);
    SteadyKeepsLocks(s, Goto(s, a, Waiting(slot, false)), a);
  }

  lemma OpeningKeepsLocks(s: State, a: ActorId, ok: bool)
    requires LocksHeld(s) && a in s.actors && s.actors[a].Opening?
    ensures LocksHeld(Opened(s, a, ok))
  {
    SteadyKeepsLocks(s, Opened(s, a, ok), a);
  }

  lemma AnnouncingKeepsLocks(s: State, a: ActorId, ok: bool)
    requires LocksHeld(s) && a in s.actors && s.actors[a].Announcing?
    ensures LocksHeld(Announced(s, a, ok))
  {
    SteadyKeepsLocks(s, Announced(s, a, ok), a);
  }

  lemma RetiringKeepsLocks(s: State, a: ActorId, hookOk: bool)
    requires LocksHeld(s) && a in s.actors && s.actors[a].Retiring?
    ensures LocksHeld(Retired(s, a, hookOk))
  {
    SteadyKeepsLocks(s, Retired(s, a, hookOk), a);
  }

  lemma ClosingKeepsLocks(s: State, a: ActorId)
    requires LocksHeld(s) && a in s.actors && s.actors[a].Closing?
    ensures LocksHeld(CloseDone(s, a))
  {
    SteadyKeepsLocks(s, CloseDone(s, a), a);
  }

  lemma DetachingKeepsLocks(s: State, a: ActorId, hookOk: bool)
    requires LocksHeld(s) && a in s.actors && s.actors[a].Detaching?
    ensures LocksHeld(HookDone(s, a, hookOk))
  {
    SteadyKeepsLocks(s, HookDone(s, a, hookOk), a);
  }

  lemma FinishingKeepsLocks(s: State, a: ActorId)
    requires LocksHeld(s) && a in s.actors && s.actors[a].Detached?
    ensures LocksHeld(DetachFinished(s, a))
  {
    SteadyKeepsLocks(s, DetachFinished(s, a), a);
  }

  /** Every step of every actor and every runner keeps the locks in step with the actors. */
  lemma StepKeepsLocks(s: State, step: Step)
    requires LocksHeld(s) && Enabled(s, step)
    ensures LocksHeld(Apply(s, step))
  {
    match step
    case StartConnect(a, slot) => RequestKeepsLocks(s, a, slot, false);
    case StartDisconnect(a, slot) => RequestKeepsLocks(s, a, slot, false);
    case StartReconnect(a, slot) => RequestKeepsLocks(s, a, slot, true);
    case Acquire(a, known) => EnteringKeepsLocks(s, a, known);
    case Probe(a, alive, hookOk) => ProbingKeepsLocks(s, a, alive, hookOk);
    case Authorise(a, granted, task) => AuthorisingKeepsLocks(s, a, granted, task);
    case RunnerReady(_) =>
    case RunnerFails(_) =>
    case Open(a, ok) => OpeningKeepsLocks(s, a, ok);
    case Announce(a, ok) => AnnouncingKeepsLocks(s, a, ok);
    case Aborted(a) => LeavingKeepsLocks(SetPhase(s, s.actors[a].task, Stopped), a);
    case Retire(a, hookOk) => RetiringKeepsLocks(s, a, hookOk);
    case Closed(a) => ClosingKeepsLocks(s, a);
    case Listed(a) => LeavingKeepsLocks(s, a);
    case Detach(a, hookOk) => DetachingKeepsLocks(s, a, hookOk);
    case DetachDone(a) => FinishingKeepsLocks(s, a);
  }

  lemma StepKeepsInvariant(s: State, step: Step)
    requires Inv(s) && Enabled(s, step)
    ensures Inv(Apply(s, step))
  {
    StepKeepsLocks(s, step);
    StepKeepsTasks(s, step);
  }

  // ---------------------------------------------------------------- whole runs

  /** Every step is possible where it is taken. */
  predicate ValidRun(s: State, steps: seq<Step>)
    decreases |steps|
  {
    steps == [] || (Enabled(s, steps[0]) && ValidRun(Apply(s, steps[0]), steps[1..]))
  }

  function After(s: State, steps: seq<Step>): State
    requires ValidRun(s, steps)
    decreases |steps|
  {
    if steps == [] then s else After(Apply(s, steps[0]), steps[1..])
  }

  lemma {:induction false} RunKeepsInvariant(s: State, steps: seq<Step>)
    requires Inv(s) && ValidRun(s, steps)
    ensures Inv(After(s, steps))
    decreases |steps|
  {
    if steps != [] {
      StepKeepsInvariant(s, steps[0]);
      RunKeepsInvariant(Apply(s, steps[0]), steps[1..]);
    }
  }

  /**
   In every interleaving: a task that has not stopped has exactly one owner, which is one suspended
   request or one open session; no task is asked to stop twice; and whatever an open session holds
   is running.
  */
  lemma EveryTaskHasOneOwner(steps: seq<Step>, t: TaskId)
    requires ValidRun(Initial(), steps)
    ensures var s := After(Initial(), steps);
            && (t in s.tasks ==> t in s.closes && s.closes[t] <= 1)
            && (t in s.tasks && s.tasks[t] != Stopped ==> HasOwner(s, t))
            && (t in s.tasks && !HasOwner(s, t) ==> s.closes[t] == 1)
            && OneOwner(s) && SessionsLive(s)
  {
    RunKeepsInvariant(Initial(), steps);
    var s := After(Initial(), steps);
    if t in s.tasks && HasOwner(s, t) {
      if a :| a in s.actors && Owned(s.actors[a]) == Some(t) {
        assert s.closes[t] <= 1;
      } else {
        var slot :| slot in s.sessions && s.sessions[slot] == t;
        assert s.closes[t] == 0;
      }
    }
  }

  /** When no request is in flight, the live tasks are exactly those of the open sessions, one each. */
  lemma QuiescentTasksAreTheSessions(steps: seq<Step>)
    requires ValidRun(Initial(), steps) && After(Initial(), steps).actors == map[]
    ensures var s := After(Initial(), steps);
            && (forall t :: t in s.tasks && s.tasks[t] != Stopped <==>
                  exists slot :: slot in s.sessions && s.sessions[slot] == t)
            && (forall p, q | p in s.sessions && q in s.sessions && s.sessions[p] == s.sessions[q] :: p == q)
            && s.locks == map[]
  {
    RunKeepsInvariant(Initial(), steps);
    var s := After(Initial(), steps);
    assert forall t | t in s.tasks && s.tasks[t] != Stopped :: HasOwner(s, t);
    assert forall slot :: slot !in s.locks;
  }

  /** At any moment at most one request per slot is between taking the connect lock and leaving it. */
  lemma OneConnectPerSlot(steps: seq<Step>, a: ActorId, b: ActorId)
    requires ValidRun(Initial(), steps)
    requires var s := After(Initial(), steps);
             && a in s.actors && b in s.actors && HoldsLock(s.actors[a]) && HoldsLock(s.actors[b])
             && s.actors[a].slot == s.actors[b].slot
    ensures a == b
  {
    RunKeepsInvariant(Initial(), steps);
  }

  // ---------------------------------------------------------------- when tools and sessions agree

  /** The request has popped the slot's session and still has to run the hook that forgets its tools. */
  ghost predicate Detaches(s: State, a: ActorId, slot: Slot) {
    a in s.actors && s.actors[a].Detaching? && s.actors[a].slot == slot
  }

  /** Apart from what `a` does, the slot has a session, open or popped with its hook still to run. */
  ghost predicate Backed(s: State, a: ActorId, slot: Slot) {
    slot in s.sessions || exists b | b != a :: Detaches(s, b, slot)
  }

  /** The slot's tools are registered exactly while it has a session, open or popped before its hook. */
  ghost predicate Agrees(s: State, slot: Slot) {
    slot in s.registered <==> slot in s.sessions || exists a :: Detaches(s, a, slot)
  }

  /** The steps that break an agreement, judged before the step. */
  ghost predicate Breaks(s: State, step: Step, slot: Slot)
    requires Enabled(s, step)
  {
    match step
    case Probe(a, alive, hookOk) => s.actors[a].slot == slot && alive && hookOk && !Backed(s, a, slot)
    case Retire(a, hookOk) => s.actors[a].slot == slot && hookOk && Backed(s, a, slot)
    case Detach(a, hookOk) =>
      s.actors[a].slot == slot && if hookOk then Backed(s, a, slot) else slot in s.registered && !Backed(s, a, slot)
    case _ => false
  }

  /** The steps after which tools and session agree, whatever they did before. */
  ghost predicate Repairs(s: State, step: Step, slot: Slot)
    requires Enabled(s, step)
  {
    match step
    case Announce(a, ok) => s.actors[a].slot == slot && ok
    case Probe(a, alive, hookOk) => s.actors[a].slot == slot && alive && hookOk && Backed(s, a, slot)
    case Retire(a, hookOk) => s.actors[a].slot == slot && hookOk && !Backed(s, a, slot)
    case Detach(a, hookOk) =>
      s.actors[a].slot == slot && !Backed(s, a, slot) && (hookOk || slot !in s.registered)
    case _ => false
  }

  /** A step that leaves registration alone and neither opens a session nor runs a popped session's hook. */
  lemma BackingFrame(s: State, u: State, a: ActorId, slot: Slot)
    requires OthersStay(s, u, a) && u.registered == s.registered
    requires slot in s.sessions || Detaches(s, a, slot) <==> slot in u.sessions || Detaches(u, a, slot)
    ensures Agrees(u, slot) <==> Agrees(s, slot)
  {
    assert forall b | b != a :: Detaches(s, b, slot) <==> Detaches(u, b, slot);
  }

  lemma BackingStays(s: State, u: State, a: ActorId, slot: Slot)
    requires OthersStay(s, u, a) && u.sessions == s.sessions
    ensures Backed(u, a, slot) <==> Backed(s, a, slot)
  {
    assert forall b | b != a :: Detaches(s, b, slot) <==> Detaches(u, b, slot);
  }

  /** Where `a` itself does not detach, agreement is about what else backs the slot. */
  lemma AgreesByBacking(s: State, a: ActorId, slot: Slot)
    requires !Detaches(s, a, slot)
    ensures Agrees(s, slot) <==> (slot in s.registered <==> Backed(s, a, slot))
  {}

  lemma ProbeAgreesIff(s: State, a: ActorId, alive: bool, hookOk: bool, slot: Slot)
    requires a in s.actors && s.actors[a].Probing?
    ensures var sets := s.actors[a].slot == slot && alive && hookOk;
            Agrees(Probed(s, a, alive, hookOk), slot) <==> if sets then Backed(s, a, slot) else Agrees(s, slot)
  {
    var u := Probed(s, a, alive, hookOk);
    BackingStays(s, u, a, slot);
    AgreesByBacking(u, a, slot);
    AgreesByBacking(s, a, slot);
  }

  lemma RetireAgreesIff(s: State, a: ActorId, hookOk: bool, slot: Slot)
    requires a in s.actors && s.actors[a].Retiring?
    ensures var clears := s.actors[a].slot == slot && hookOk;
            Agrees(Retired(s, a, hookOk), slot) <==> if clears then !Backed(s, a, slot) else Agrees(s, slot)
  {
    var u := Retired(s, a, hookOk);
    BackingStays(s, u, a, slot);
    AgreesByBacking(u, a, slot);
    AgreesByBacking(s, a, slot);
  }

  lemma DetachAgreesIff(s: State, a: ActorId, hookOk: bool, slot: Slot)
    requires a in s.actors && s.actors[a].Detaching?
    ensures Agrees(HookDone(s, a, hookOk), slot) <==>
            if s.actors[a].slot != slot then Agrees(s, slot)
            else (!hookOk && slot in s.registered) <==> Backed(s, a, slot)
  {
    var u := HookDone(s, a, hookOk);
    BackingStays(s, u, a, slot);
    AgreesByBacking(u, a, slot);
    if s.actors[a].slot != slot {
      AgreesByBacking(s, a, slot);
    }
  }

  lemma AnnounceAgreesIff(s: State, a: ActorId, ok: bool, slot: Slot)
    requires a in s.actors && s.actors[a].Announcing?
    ensures Agrees(Announced(s, a, ok), slot) <==> (s.actors[a].slot == slot && ok) || Agrees(s, slot)
  {
    if !ok || s.actors[a].slot != slot {
      var u := Announced(s, a, ok);
      assert forall b :: Detaches(s, b, slot) <==> Detaches(u, b, slot);
    }
  }

  lemma ConnectAgreesIff(s: State, a: ActorId, other: Slot, slot: Slot)
    requires a !in s.actors
    ensures Agrees(Goto(s, a, Waiting(other, false)), slot) <==> Agrees(s, slot)
  {
    BackingFrame(s, Goto(s, a, Waiting(other, false)), a, slot);
  }

  lemma DropAgreesIff(s: State, a: ActorId, other: Slot, reconnect: bool, slot: Slot)
    requires a !in s.actors
    ensures Agrees(Drop(s, a, other, reconnect), slot) <==> Agrees(s, slot)
  {
    if other in s.sessions || reconnect {
      BackingFrame(s, Drop(s, a, other, reconnect), a, slot);
    }
  }

  lemma EnterAgreesIff(s: State, a: ActorId, known: bool, slot: Slot)
    requires a in s.actors && s.actors[a].Waiting?
    ensures Agrees(Enter(s, a, s.actors[a].slot, s.actors[a].force, known), slot) <==> Agrees(s, slot)
  {
    BackingFrame(s, Enter(s, a, s.actors[a].slot, s.actors[a].force, known), a, slot);
  }

  lemma AuthoriseAgreesIff(s: State, a: ActorId, granted: bool, task: TaskId, slot: Slot)
    requires a in s.actors && s.actors[a].Authorising?
    ensures Agrees(Authorised(s, a, granted, task), slot) <==> Agrees(s, slot)
  {
    BackingFrame(s, Authorised(s, a, granted, task), a, slot);
  }

  lemma OpenAgreesIff(s: State, a: ActorId, ok: bool, slot: Slot)
    requires a in s.actors && s.actors[a].Opening?
    ensures Agrees(Opened(s, a, ok), slot) <==> Agrees(s, slot)
  {
    BackingFrame(s, Opened(s, a, ok), a, slot);
  }

  lemma LeaveAgreesIff(s: State, u: State, a: ActorId, slot: Slot)
    requires a in s.actors && !s.actors[a].Detaching?
    requires u.registered == s.registered && u.sessions == s.sessions
    requires OthersStay(s, u, a) && (a in u.actors ==> !u.actors[a].Detaching?)
    ensures Agrees(u, slot) <==> Agrees(s, slot)
  {
    BackingFrame(s, u, a, slot);
  }

  lemma RunnerAgreesIff(s: State, t: TaskId, phase: Phase, slot: Slot)
    ensures Agrees(SetPhase(s, t, phase), slot) <==> Agrees(s, slot)
  {
    var u := SetPhase(s, t, phase);
    assert forall b :: Detaches(s, b, slot) <==> Detaches(u, b, slot);
  }

  /** What a step does to the agreement of one slot, exactly, from any state. */
  lemma StepAgreesIff(s: State, step: Step, slot: Slot)
    requires Enabled(s, step)
    ensures Agrees(Apply(s, step), slot) <==> (Agrees(s, slot) && !Breaks(s, step, slot)) || Repairs(s, step, slot)
  {
    match step
    case StartConnect(a, other) => ConnectAgreesIff(s, a, other, slot);
    case StartDisconnect(a, other) => DropAgreesIff(s, a, other, false, slot);
    case StartReconnect(a, other) => DropAgreesIff(s, a, other, true, slot);
    case Acquire(a, known) => EnterAgreesIff(s, a, known, slot);
    case Probe(a, alive, hookOk) => ProbeAgreesIff(s, a, alive, hookOk, slot);
    case Authorise(a, granted, task) => AuthoriseAgreesIff(s, a, granted, task, slot);
    case RunnerReady(t) => RunnerAgreesIff(s, t, Live, slot);
    case RunnerFails(t) => RunnerAgreesIff(s, t, Stopped, slot);
    case Open(a, ok) => OpenAgreesIff(s, a, ok, slot);
    case Announce(a, ok) => AnnounceAgreesIff(s, a, ok, slot);
    case Aborted(a) => LeaveAgreesIff(s, AbortDone(s, a), a, slot);
    case Retire(a, hookOk) => RetireAgreesIff(s, a, hookOk, slot);
    case Closed(a) => LeaveAgreesIff(s, CloseDone(s, a), a, slot);
    case Listed(a) => LeaveAgreesIff(s, Release(s, a), a, slot);
    case Detach(a, hookOk) => DetachAgreesIff(s, a, hookOk, slot);
    case DetachDone(a) => LeaveAgreesIff(s, DetachFinished(s, a), a, slot);
  }

  /** No step of the run breaks the agreement. */
  ghost predicate NeverBreaks(s: State, steps: seq<Step>, slot: Slot)
    requires ValidRun(s, steps)
    decreases |steps|
  {
    steps == [] || (!Breaks(s, steps[0], slot) && NeverBreaks(Apply(s, steps[0]), steps[1..], slot))
  }

  ghost predicate AlwaysAgrees(s: State, steps: seq<Step>, slot: Slot)
    requires ValidRun(s, steps)
    decreases |steps|
  {
    Agrees(s, slot) && (steps == [] || AlwaysAgrees(Apply(s, steps[0]), steps[1..], slot))
  }

  /** The last step of the run that breaks or repairs the agreement repairs it, or there is none. */
  ghost predicate EndsRepaired(s: State, steps: seq<Step>, slot: Slot, sofar: bool)
    requires ValidRun(s, steps)
    decreases |steps|
  {
    if steps == [] then sofar
    else
      EndsRepaired(Apply(s, steps[0]), steps[1..], slot,
                   (sofar && !Breaks(s, steps[0], slot)) || Repairs(s, steps[0], slot))
  }

  lemma {:induction false} RunAgreesFrom(s: State, steps: seq<Step>, slot: Slot)
    requires ValidRun(s, steps)
    ensures Agrees(After(s, steps), slot) <==> EndsRepaired(s, steps, slot, Agrees(s, slot))
    ensures AlwaysAgrees(s, steps, slot) <==> Agrees(s, slot) && NeverBreaks(s, steps, slot)
    decreases |steps|
  {
    if steps != [] {
      StepAgreesIff(s, steps[0], slot);
      RepairedIsUnbroken(s, steps[0], slot);
      RunAgreesFrom(Apply(s, steps[0]), steps[1..], slot);
    }
  }

  lemma RepairedIsUnbroken(s: State, step: Step, slot: Slot)
    requires Enabled(s, step)
    ensures !(Breaks(s, step, slot) && Repairs(s, step, slot))
  {}

  /**
   In every interleaving, a slot's tools are registered exactly while it has a session all along
   iff no step breaks the agreement, and at the end iff no step has broken it since it was last
   repaired.
  */
  lemma ToolsFollowSessionsIff(steps: seq<Step>, slot: Slot)
    requires ValidRun(Initial(), steps)
    ensures AlwaysAgrees(Initial(), steps, slot) <==> NeverBreaks(Initial(), steps, slot)
    ensures Agrees(After(Initial(), steps), slot) <==> EndsRepaired(Initial(), steps, slot, true)
  {
    RunAgreesFrom(Initial(), steps, slot);
  }

  /** When no request is in flight, the slot has tools exactly if it has a session iff it ended repaired. */
  lemma QuiescentToolsAreTheSessionsIff(steps: seq<Step>, slot: Slot)
    requires ValidRun(Initial(), steps) && After(Initial(), steps).actors == map[]
    ensures var s := After(Initial(), steps);
            (slot in s.registered <==> slot in s.sessions) <==> EndsRepaired(Initial(), steps, slot, true)
  {
    ToolsFollowSessionsIff(steps, slot);
    assert forall a :: !Detaches(After(Initial(), steps), a, slot);
  }

  // ---------------------------------------------------------------- runs that break the agreement

  lemma RunStep(s: State, step: Step, rest: seq<Step>)
    requires Enabled(s, step) && ValidRun(Apply(s, step), rest)
    ensures ValidRun(s, [step] + rest) && After(s, [step] + rest) == After(Apply(s, step), rest)
  {}

  lemma {:induction false} RunAppend(s: State, xs: seq<Step>, ys: seq<Step>)
    requires ValidRun(s, xs) && ValidRun(After(s, xs), ys)
    ensures ValidRun(s, xs + ys) && After(s, xs + ys) == After(After(s, xs), ys)
    decreases |xs|
  {
    if xs == [] {
      assert xs + ys == ys;
    } else {
      RunAppend(Apply(s, xs[0]), xs[1..], ys);
      assert xs + ys == [xs[0]] + (xs[1..] + ys);
      RunStep(s, xs[0], xs[1..] + ys);
    }
  }

  function EnterAndProbe(a: ActorId, slot: Slot): seq<Step> {
    [StartConnect(a, slot)] + ([Acquire(a, true)] + ([Probe(a, false, false)] + []))
  }

  function StartRunner(a: ActorId, task: TaskId): seq<Step> {
    [Authorise(a, true, task)] + ([RunnerReady(task)] + ([Open(a, true)] + []))
  }

  function SwapIn(a: ActorId): seq<Step> {
    [Announce(a, true)] + ([Retire(a, true)] + [])
  }

  function WrapUp(a: ActorId): seq<Step> {
    [Closed(a)] + ([Listed(a)] + [])
  }

  lemma EnterAndProbeRuns(s: State, a: ActorId, slot: Slot)
    requires slot in s.sessions && slot !in s.locks && a !in s.actors
    ensures ValidRun(s, EnterAndProbe(a, slot))
    ensures var u := After(s, EnterAndProbe(a, slot));
            && u.actors == s.actors[a := Authorising(slot)] && u.locks == s.locks[slot := a]
            && u.sessions == s.sessions && u.tasks == s.tasks && u.registered == s.registered
  {
    var s1 := Apply(s, StartConnect(a, slot));
    var s2 := Apply(s1, Acquire(a, true));
    RunStep(s2, Probe(a, false, false), []);
    RunStep(s1, Acquire(a, true), [Probe(a, false, false)] + []);
    RunStep(s, StartConnect(a, slot), [Acquire(a, true)] + ([Probe(a, false, false)] + []));
  }

  lemma StartRunnerRuns(s: State, a: ActorId, slot: Slot, task: TaskId)
    requires a in s.actors && s.actors[a] == Authorising(slot) && task !in s.tasks
    ensures ValidRun(s, StartRunner(a, task))
    ensures var u := After(s, StartRunner(a, task));
            && u.actors == s.actors[a := Announcing(slot, task)]
            && u.locks == s.locks && u.sessions == s.sessions && u.registered == s.registered
  {
    var s1 := Apply(s, Authorise(a, true, task));
    var s2 := Apply(s1, RunnerReady(task));
    RunStep(s2, Open(a, true), []);
    RunStep(s1, RunnerReady(task), [Open(a, true)] + []);
    RunStep(s, Authorise(a, true, task), [RunnerReady(task)] + ([Open(a, true)] + []));
  }

  lemma SwapInRuns(s: State, a: ActorId, slot: Slot, task: TaskId)
    requires a in s.actors && s.actors[a] == Announcing(slot, task) && slot in s.sessions
    ensures ValidRun(s, SwapIn(a))
    ensures var u := After(s, SwapIn(a));
            && u.actors == s.actors[a := Closing(slot, s.sessions[slot])] && u.locks == s.locks
            && u.sessions == s.sessions[slot := task] && slot !in u.registered
  {
    RunStep(Apply(s, Announce(a, true)), Retire(a, true), []);
    RunStep(s, Announce(a, true), [Retire(a, true)] + []);
  }

  lemma WrapUpRuns(s: State, a: ActorId, slot: Slot, prior: TaskId)
    requires a in s.actors && s.actors[a] == Closing(slot, prior)
    ensures ValidRun(s, WrapUp(a))
    ensures var u := After(s, WrapUp(a));
            && u.actors == s.actors - {a} && u.locks == s.locks - {slot}
            && u.sessions == s.sessions && u.registered == s.registered
  {
    RunStep(Apply(s, Closed(a)), Listed(a), []);
    RunStep(s, Closed(a), [Listed(a)] + []);
  }

  /** From the access token on. */
  function ReplaceFrom(a: ActorId, task: TaskId): seq<Step> {
    StartRunner(a, task) + (SwapIn(a) + WrapUp(a))
  }

  lemma ReplaceFromRuns(s: State, a: ActorId, slot: Slot, task: TaskId)
    requires a in s.actors && s.actors[a] == Authorising(slot) && task !in s.tasks && slot in s.sessions
    ensures ValidRun(s, ReplaceFrom(a, task))
    ensures var u := After(s, ReplaceFrom(a, task));
            && u.sessions == s.sessions[slot := task] && slot !in u.registered
            && u.actors == s.actors - {a} && u.locks == s.locks - {slot}
  {
    StartRunnerRuns(s, a, slot, task);
    var s2 := After(s, StartRunner(a, task));
    SwapInRuns(s2, a, slot, task);
    var s3 := After(s2, SwapIn(a));
    WrapUpRuns(s3, a, slot, s2.sessions[slot]);
    RunAppend(s2, SwapIn(a), WrapUp(a));
    RunAppend(s, StartRunner(a, task), SwapIn(a) + WrapUp(a));
  }

  /**
   The connect hook registers the new session's tools and the disconnect hook for the old session
   then drops them by name: from any state, replacing a stale session leaves it open but without tools.
  */
  lemma ReplacingAStaleSessionForgetsTools(s: State, a: ActorId, slot: Slot, task: TaskId)
    requires slot in s.sessions && slot !in s.locks && a !in s.actors && task !in s.tasks
    ensures ValidRun(s, EnterAndProbe(a, slot) + ReplaceFrom(a, task))
    ensures var u := After(s, EnterAndProbe(a, slot) + ReplaceFrom(a, task));
            && u.sessions == s.sessions[slot := task] && slot !in u.registered
            && u.actors == s.actors && u.locks == s.locks
  {
    EnterAndProbeRuns(s, a, slot);
    ReplaceFromRuns(After(s, EnterAndProbe(a, slot)), a, slot, task);
    RunAppend(s, EnterAndProbe(a, slot), ReplaceFrom(a, task));
  }

  function BeginReuse(a: ActorId, slot: Slot): seq<Step> {
    [StartConnect(a, slot)] + ([Acquire(a, true)] + [])
  }

  function PopAndForget(b: ActorId, slot: Slot): seq<Step> {
    [StartDisconnect(b, slot)] + ([Detach(b, true)] + [])
  }

  function FinishReuse(a: ActorId): seq<Step> {
    [Probe(a, true, true)] + []
  }

  lemma BeginReuseRuns(s: State, a: ActorId, slot: Slot)
    requires slot in s.sessions && slot !in s.locks && a !in s.actors
    ensures ValidRun(s, BeginReuse(a, slot))
    ensures var u := After(s, BeginReuse(a, slot));
            && u.actors == s.actors[a := Probing(slot)] && u.locks == s.locks[slot := a]
            && u.sessions == s.sessions
  {
    RunStep(Apply(s, StartConnect(a, slot)), Acquire(a, true), []);
    RunStep(s, StartConnect(a, slot), [Acquire(a, true)] + []);
  }

  lemma PopAndForgetRuns(s: State, b: ActorId, slot: Slot)
    requires slot in s.sessions && b !in s.actors
    ensures ValidRun(s, PopAndForget(b, slot))
    ensures var u := After(s, PopAndForget(b, slot));
            && u.actors == s.actors[b := Detached(slot, s.sessions[slot], false)] && u.locks == s.locks
            && slot !in u.sessions && slot !in u.registered && u.tasks == s.tasks
  {
    RunStep(Apply(s, StartDisconnect(b, slot)), Detach(b, true), []);
    RunStep(s, StartDisconnect(b, slot), [Detach(b, true)] + []);
  }

  function FinishBoth(a: ActorId, b: ActorId): seq<Step> {
    [Probe(a, true, true)] + ([DetachDone(b)] + [])
  }

  /** The probe is answered while the popped session's task still runs; only then is that task closed. */
  lemma FinishBothRuns(s: State, a: ActorId, b: ActorId, slot: Slot, task: TaskId)
    requires a != b && a in s.actors && s.actors[a] == Probing(slot)
    requires b in s.actors && s.actors[b] == Detached(slot, task, false)
    ensures ValidRun(s, FinishBoth(a, b))
    ensures var u := After(s, FinishBoth(a, b));
            && u.actors == s.actors - {a, b} && u.locks == s.locks - {slot}
            && u.sessions == s.sessions && u.registered == s.registered + {slot}
  {
    RunStep(Apply(s, Probe(a, true, true)), DetachDone(b), []);
    RunStep(s, Probe(a, true, true), [DetachDone(b)] + []);
  }

  lemma FinishReuseRuns(s: State, a: ActorId, slot: Slot)
    requires a in s.actors && s.actors[a] == Probing(slot)
    ensures ValidRun(s, FinishReuse(a))
    ensures var u := After(s, FinishReuse(a));
            && u.actors == s.actors - {a} && u.locks == s.locks - {slot}
            && u.sessions == s.sessions && u.registered == s.registered + {slot}
  {}

  /** A later connect that finds the session answering registers its tools again. */
  lemma ReusingASessionRestoresTools(s: State, a: ActorId, slot: Slot)
    requires slot in s.sessions && slot !in s.locks && a !in s.actors
    ensures ValidRun(s, BeginReuse(a, slot) + FinishReuse(a))
    ensures var u := After(s, BeginReuse(a, slot) + FinishReuse(a));
            u.sessions == s.sessions && slot in u.registered && u.actors == s.actors && u.locks == s.locks
  {
    BeginReuseRuns(s, a, slot);
    FinishReuseRuns(After(s, BeginReuse(a, slot)), a, slot);
    RunAppend(s, BeginReuse(a, slot), FinishReuse(a));
  }

  /** A disconnect takes no lock, so one that overtakes a reuse leaves tools without a session. */
  lemma DisconnectDuringProbeLeavesTools(s: State, a: ActorId, b: ActorId, slot: Slot)
    requires slot in s.sessions && slot !in s.locks && a !in s.actors && b !in s.actors && a != b
    ensures ValidRun(s, BeginReuse(a, slot) + (PopAndForget(b, slot) + FinishBoth(a, b)))
    ensures var u := After(s, BeginReuse(a, slot) + (PopAndForget(b, slot) + FinishBoth(a, b)));
            slot !in u.sessions && slot in u.registered && u.actors == s.actors && u.locks == s.locks
  {
    BeginReuseRuns(s, a, slot);
    var s1 := After(s, BeginReuse(a, slot));
    PopAndForgetRuns(s1, b, slot);
    var s2 := After(s1, PopAndForget(b, slot));
    FinishBothRuns(s2, a, b, slot, s1.sessions[slot]);
    RunAppend(s1, PopAndForget(b, slot), FinishBoth(a, b));
    RunAppend(s, BeginReuse(a, slot), PopAndForget(b, slot) + FinishBoth(a, b));
  }
}
