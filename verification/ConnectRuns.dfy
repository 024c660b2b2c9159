/**
 What requests come to when nothing interferes: every way in which a connect, a disconnect or a
 reconnect can go, from any state, with the whole state that it leaves; and that none gets stuck.
*/
module ConnectRuns {
  import opened Wrappers
  import opened McpLifecycle

  // ---------------------------------------------------------------- parts of runs

  function Run2(x: Step, y: Step): seq<Step> {
    [x] + ([y] + [])
  }

  lemma Run2Runs(s: State, x: Step, y: Step)
    requires Enabled(s, x) && Enabled(Apply(s, x), y)
    ensures ValidRun(s, Run2(x, y)) && After(s, Run2(x, y)) == Apply(Apply(s, x), y)
  {
    RunStep(Apply(s, x), y, []);
    RunStep(s, x, [y] + []);
  }

  function Run3(x: Step, y: Step, z: Step): seq<Step> {
    [x] + Run2(y, z)
  }

  lemma Run3Runs(s: State, x: Step, y: Step, z: Step)
    requires Enabled(s, x) && Enabled(Apply(s, x), y) && Enabled(Apply(Apply(s, x), y), z)
    ensures ValidRun(s, Run3(x, y, z)) && After(s, Run3(x, y, z)) == Apply(Apply(Apply(s, x), y), z)
  {
    Run2Runs(Apply(s, x), y, z);
    RunStep(s, x, Run2(y, z));
  }

  /** A request that waits for the lock enters: it probes an open session unless a refresh is forced. */
  lemma EntersRuns(s: State, a: ActorId, slot: Slot, force: bool)
    requires a in s.actors && s.actors[a] == Waiting(slot, force) && slot !in s.locks
    ensures Enabled(s, Acquire(a, true))
    ensures var pc := if !force && slot in s.sessions then Probing(slot) else Authorising(slot);
            Apply(s, Acquire(a, true))
            == State(s.sessions, s.registered, s.locks[slot := a], s.tasks, s.closes, s.actors[a := pc])
  {}

  /** From the access token to the connect hook. */
  function RunnerUp(a: ActorId, task: TaskId): seq<Step> {
    Run3(Authorise(a, true, task), RunnerReady(task), Open(a, true))
  }

  lemma RunnerUpRuns(s: State, a: ActorId, slot: Slot, task: TaskId)
    requires a in s.actors && s.actors[a] == Authorising(slot) && task !in s.tasks
    ensures ValidRun(s, RunnerUp(a, task))
    ensures var u := After(s, RunnerUp(a, task));
            && u.sessions == s.sessions && u.registered == s.registered && u.locks == s.locks
            && u.tasks == s.tasks[task := Live] && u.closes == s.closes[task := 0]
            && u.actors == s.actors[a := Announcing(slot, task)]
  {
    Run3Runs(s, Authorise(a, true, task), RunnerReady(task), Open(a, true));
  }

  /** The first session of a slot is installed. */
  lemma InstallRuns(s: State, a: ActorId, slot: Slot, task: TaskId)
    requires a in s.actors && s.actors[a] == Announcing(slot, task) && slot !in s.sessions
    ensures ValidRun(s, Run2(Announce(a, true), Listed(a)))
    ensures var u := After(s, Run2(Announce(a, true), Listed(a)));
            && u.sessions == s.sessions[slot := task] && u.registered == s.registered + {slot}
            && u.locks == s.locks - {slot} && u.tasks == s.tasks && u.closes == s.closes
            && u.actors == s.actors - {a}
  {
    Run2Runs(s, Announce(a, true), Listed(a));
  }

  /** One part of a run after another. */
  lemma Chain(s: State, xs: seq<Step>, m: State, ys: seq<Step>, u: State)
    requires ValidRun(s, xs) && After(s, xs) == m && ValidRun(m, ys) && After(m, ys) == u
    ensures ValidRun(s, xs + ys) && After(s, xs + ys) == u
  {
    RunAppend(s, xs, ys);
  }

  /** The new session is in place, and the one before has been asked to stop. */
  lemma SwapInRuns(s: State, a: ActorId, slot: Slot, task: TaskId, hookOk: bool)
    requires a in s.actors && s.actors[a] == Announcing(slot, task) && slot in s.sessions
    requires s.sessions[slot] in s.closes
    ensures ValidRun(s, Run2(Announce(a, true), Retire(a, hookOk)))
    ensures var u, prior := After(s, Run2(Announce(a, true), Retire(a, hookOk))), s.sessions[slot];
            && u.sessions == s.sessions[slot := task]
            && u.registered == (if hookOk then s.registered - {slot} else s.registered + {slot})
            && u.locks == s.locks && u.tasks == s.tasks && u.closes == s.closes[prior := s.closes[prior] + 1]
            && u.actors == s.actors[a := Closing(slot, prior)]
  {
    Run2Runs(s, Announce(a, true), Retire(a, hookOk));
  }

  lemma CloseAndListRuns(s: State, a: ActorId, slot: Slot, prior: TaskId)
    requires a in s.actors && s.actors[a] == Closing(slot, prior)
    ensures ValidRun(s, Run2(Closed(a), Listed(a)))
    ensures var u := After(s, Run2(Closed(a), Listed(a)));
            && u.sessions == s.sessions && u.registered == s.registered && u.locks == s.locks - {slot}
            && u.tasks == s.tasks[prior := Stopped] && u.closes == s.closes && u.actors == s.actors - {a}
  {
    Run2Runs(s, Closed(a), Listed(a));
  }

  function SwapAndClose(a: ActorId, hookOk: bool): seq<Step> {
    Run2(Announce(a, true), Retire(a, hookOk)) + Run2(Closed(a), Listed(a))
  }

  /** A further session of a slot replaces the one before, which is asked to stop once and stops. */
  lemma SwapRuns(s: State, a: ActorId, slot: Slot, task: TaskId, hookOk: bool)
    requires a in s.actors && s.actors[a] == Announcing(slot, task) && slot in s.sessions
    requires s.sessions[slot] in s.closes
    ensures ValidRun(s, SwapAndClose(a, hookOk))
    ensures var u, prior := After(s, SwapAndClose(a, hookOk)), s.sessions[slot];
            && u.sessions == s.sessions[slot := task]
            && u.registered == (if hookOk then s.registered - {slot} else s.registered + {slot})
            && u.locks == s.locks - {slot} && u.tasks == s.tasks[prior := Stopped]
            && u.closes == s.closes[prior := s.closes[prior] + 1] && u.actors == s.actors - {a}
  {
    SwapInRuns(s, a, slot, task, hookOk);
    var m := After(s, Run2(Announce(a, true), Retire(a, hookOk)));
    CloseAndListRuns(m, a, slot, s.sessions[slot]);
    Chain(s, Run2(Announce(a, true), Retire(a, hookOk)), m, Run2(Closed(a), Listed(a)),
          After(m, Run2(Closed(a), Listed(a))));
  }

  lemma FailedHookRuns(s: State, a: ActorId, slot: Slot, task: TaskId)
    requires a in s.actors && s.actors[a] == Announcing(slot, task) && task in s.tasks && task in s.closes
    ensures ValidRun(s, Run2(Announce(a, false), Aborted(a)))
    ensures var u := After(s, Run2(Announce(a, false), Aborted(a)));
            && u.sessions == s.sessions && u.registered == s.registered && u.locks == s.locks - {slot}
            && u.tasks == s.tasks[task := Stopped] && u.closes == s.closes[task := s.closes[task] + 1]
            && u.actors == s.actors - {a}
  {
    Run2Runs(s, Announce(a, false), Aborted(a));
  }

  /** From the access token on, for a slot without a session. */
  function OpenFirst(a: ActorId, task: TaskId): seq<Step> {
    RunnerUp(a, task) + Run2(Announce(a, true), Listed(a))
  }

  lemma OpenFirstRuns(s: State, a: ActorId, slot: Slot, task: TaskId)
    requires a in s.actors && s.actors[a] == Authorising(slot) && task !in s.tasks && slot !in s.sessions
    ensures ValidRun(s, OpenFirst(a, task))
    ensures var u := After(s, OpenFirst(a, task));
            && u.sessions == s.sessions[slot := task] && u.registered == s.registered + {slot}
            && u.locks == s.locks - {slot} && u.tasks == s.tasks[task := Live] && u.closes == s.closes[task := 0]
            && u.actors == s.actors - {a}
  {
    RunnerUpRuns(s, a, slot, task);
    var m := After(s, RunnerUp(a, task));
    InstallRuns(m, a, slot, task);
    Chain(s, RunnerUp(a, task), m, Run2(Announce(a, true), Listed(a)),
          After(m, Run2(Announce(a, true), Listed(a))));
  }

  /** From the access token on, for a slot with a session. */
  function OpenNext(a: ActorId, task: TaskId, hookOk: bool): seq<Step> {
    RunnerUp(a, task) + SwapAndClose(a, hookOk)
  }

  lemma OpenNextRuns(s: State, a: ActorId, slot: Slot, task: TaskId, hookOk: bool)
    requires a in s.actors && s.actors[a] == Authorising(slot) && task !in s.tasks && slot in s.sessions
    requires s.sessions[slot] in s.tasks && s.sessions[slot] in s.closes
    ensures ValidRun(s, OpenNext(a, task, hookOk))
    ensures var u, prior := After(s, OpenNext(a, task, hookOk)), s.sessions[slot];
            && u.sessions == s.sessions[slot := task]
            && u.registered == (if hookOk then s.registered - {slot} else s.registered + {slot})
            && u.locks == s.locks - {slot} && u.tasks == s.tasks[task := Live][prior := Stopped]
            && u.closes == s.closes[task := 0][prior := s.closes[prior] + 1] && u.actors == s.actors - {a}
  {
    RunnerUpRuns(s, a, slot, task);
    var m := After(s, RunnerUp(a, task));
    SwapRuns(m, a, slot, task, hookOk);
    Chain(s, RunnerUp(a, task), m, SwapAndClose(a, hookOk), After(m, SwapAndClose(a, hookOk)));
  }

  /** From the access token on, when the runner fails or is late. */
  function OpenNot(a: ActorId, task: TaskId, fails: bool): seq<Step> {
    if fails then Run2(Authorise(a, true, task), RunnerFails(task)) + GiveUp(a)
    else [Authorise(a, true, task)] + GiveUp(a)
  }

  function GiveUp(a: ActorId): seq<Step> {
    Run2(Open(a, false), Aborted(a))
  }

  lemma GiveUpRuns(s: State, a: ActorId, slot: Slot, task: TaskId)
    requires a in s.actors && s.actors[a] == Opening(slot, task) && task in s.tasks && task in s.closes
    ensures ValidRun(s, GiveUp(a))
    ensures var u := After(s, GiveUp(a));
            && u.sessions == s.sessions && u.registered == s.registered && u.locks == s.locks - {slot}
            && u.tasks == s.tasks[task := Stopped] && u.closes == s.closes[task := s.closes[task] + 1]
            && u.actors == s.actors - {a}
  {
    Run2Runs(s, Open(a, false), Aborted(a));
  }

  lemma RunnerFailsRuns(s: State, a: ActorId, slot: Slot, task: TaskId)
    requires a in s.actors && s.actors[a] == Authorising(slot) && task !in s.tasks
    ensures ValidRun(s, Run2(Authorise(a, true, task), RunnerFails(task)))
    ensures var u := After(s, Run2(Authorise(a, true, task), RunnerFails(task)));
            && u.sessions == s.sessions && u.registered == s.registered && u.locks == s.locks
            && u.tasks == s.tasks[task := Stopped] && u.closes == s.closes[task := 0]
            && u.actors == s.actors[a := Opening(slot, task)]
  {
    Run2Runs(s, Authorise(a, true, task), RunnerFails(task));
  }

  lemma OpenNotRuns(s: State, a: ActorId, slot: Slot, task: TaskId, fails: bool)
    requires a in s.actors && s.actors[a] == Authorising(slot) && task !in s.tasks
    ensures ValidRun(s, OpenNot(a, task, fails))
    ensures var u := After(s, OpenNot(a, task, fails));
            && u.sessions == s.sessions && u.registered == s.registered && u.locks == s.locks - {slot}
            && u.tasks == s.tasks[task := Stopped] && u.closes == s.closes[task := 1] && u.actors == s.actors - {a}
  {
    if fails {
      RunnerFailsThenStops(s, a, slot, task);
    } else {
      RunnerIsLate(s, a, slot, task);
    }
  }

  lemma RunnerFailsThenStops(s: State, a: ActorId, slot: Slot, task: TaskId)
    requires a in s.actors && s.actors[a] == Authorising(slot) && task !in s.tasks
    ensures ValidRun(s, OpenNot(a, task, true))
    ensures var u := After(s, OpenNot(a, task, true));
            && u.sessions == s.sessions && u.registered == s.registered && u.locks == s.locks - {slot}
            && u.tasks == s.tasks[task := Stopped] && u.closes == s.closes[task := 1] && u.actors == s.actors - {a}
  {
    var started := Run2(Authorise(a, true, task), RunnerFails(task));
    RunnerFailsRuns(s, a, slot, task);
    var m := After(s, started);
    GiveUpRuns(m, a, slot, task);
    Chain(s, started, m, GiveUp(a), After(m, GiveUp(a)));
  }

  lemma RunnerIsLate(s: State, a: ActorId, slot: Slot, task: TaskId)
    requires a in s.actors && s.actors[a] == Authorising(slot) && task !in s.tasks
    ensures ValidRun(s, OpenNot(a, task, false))
    ensures var u := After(s, OpenNot(a, task, false));
            && u.sessions == s.sessions && u.registered == s.registered && u.locks == s.locks - {slot}
            && u.tasks == s.tasks[task := Stopped] && u.closes == s.closes[task := 1] && u.actors == s.actors - {a}
  {
    var m := Apply(s, Authorise(a, true, task));
    GiveUpRuns(m, a, slot, task);
    RunStep(s, Authorise(a, true, task), GiveUp(a));
  }

  /** From the access token on, when the connect hook fails. */
  function OpenInVain(a: ActorId, task: TaskId): seq<Step> {
    RunnerUp(a, task) + Run2(Announce(a, false), Aborted(a))
  }

  lemma OpenInVainRuns(s: State, a: ActorId, slot: Slot, task: TaskId)
    requires a in s.actors && s.actors[a] == Authorising(slot) && task !in s.tasks
    ensures ValidRun(s, OpenInVain(a, task))
    ensures var u := After(s, OpenInVain(a, task));
            && u.sessions == s.sessions && u.registered == s.registered && u.locks == s.locks - {slot}
            && u.tasks == s.tasks[task := Stopped] && u.closes == s.closes[task := 1] && u.actors == s.actors - {a}
  {
    RunnerUpRuns(s, a, slot, task);
    var m := After(s, RunnerUp(a, task));
    FailedHookRuns(m, a, slot, task);
    Chain(s, RunnerUp(a, task), m, Run2(Announce(a, false), Aborted(a)),
          After(m, Run2(Announce(a, false), Aborted(a))));
  }

  // ---------------------------------------------------------------- connecting

  function Begin(a: ActorId, slot: Slot): seq<Step> {
    Run2(StartConnect(a, slot), Acquire(a, true))
  }

  lemma BeginRuns(s: State, a: ActorId, slot: Slot)
    requires a !in s.actors && slot !in s.locks
    ensures ValidRun(s, Begin(a, slot))
    ensures var pc := if slot in s.sessions then Probing(slot) else Authorising(slot);
            After(s, Begin(a, slot))
            == State(s.sessions, s.registered, s.locks[slot := a], s.tasks, s.closes, s.actors[a := pc])
  {
    Run2Runs(s, StartConnect(a, slot), Acquire(a, true));
    assert s.actors[a := Waiting(slot, false)][a := Probing(slot)] == s.actors[a := Probing(slot)];
    assert s.actors[a := Waiting(slot, false)][a := Authorising(slot)] == s.actors[a := Authorising(slot)];
  }

  /** Nothing has changed. */
  ghost predicate Same(s: State, u: State) {
    && u.sessions == s.sessions && u.registered == s.registered && u.locks == s.locks
    && u.tasks == s.tasks && u.closes == s.closes && u.actors == s.actors
  }

  /** The state of a request that has just entered with its lock, and nothing else. */
  function Entered(s: State, a: ActorId, slot: Slot, pc: Pc): State {
    State(s.sessions, s.registered, s.locks[slot := a], s.tasks, s.closes, s.actors[a := pc])
  }

  lemma EnteredIsUndone(s: State, a: ActorId, slot: Slot, pc: Pc)
    requires a !in s.actors && slot !in s.locks
    ensures Entered(s, a, slot, pc).locks - {slot} == s.locks && Entered(s, a, slot, pc).actors - {a} == s.actors
  {}

  /** The session did not answer, so the request goes on to the access token. */
  function BeginStale(a: ActorId, slot: Slot): seq<Step> {
    Begin(a, slot) + ([Probe(a, false, false)] + [])
  }

  lemma BeginStaleRuns(s: State, a: ActorId, slot: Slot)
    requires a !in s.actors && slot !in s.locks && slot in s.sessions
    ensures ValidRun(s, BeginStale(a, slot)) && After(s, BeginStale(a, slot)) == Entered(s, a, slot, Authorising(slot))
  {
    BeginRuns(s, a, slot);
    var m := Entered(s, a, slot, Probing(slot));
    RunStep(m, Probe(a, false, false), []);
    assert s.actors[a := Probing(slot)][a := Authorising(slot)] == s.actors[a := Authorising(slot)];
    Chain(s, Begin(a, slot), m, [Probe(a, false, false)] + [], Entered(s, a, slot, Authorising(slot)));
  }

  /** However it gets there, a request with its lock is before the access token. */
  function Approach(s: State, a: ActorId, slot: Slot): seq<Step> {
    if slot in s.sessions then BeginStale(a, slot) else Begin(a, slot)
  }

  lemma ApproachRuns(s: State, a: ActorId, slot: Slot)
    requires a !in s.actors && slot !in s.locks
    ensures ValidRun(s, Approach(s, a, slot))
    ensures After(s, Approach(s, a, slot)) == Entered(s, a, slot, Authorising(slot))
  {
    if slot in s.sessions {
      BeginStaleRuns(s, a, slot);
    } else {
      BeginRuns(s, a, slot);
    }
  }

  /** A free slot gets a session with a running task and its tools. */
  lemma ConnectOpensSession(s: State, a: ActorId, slot: Slot, task: TaskId)
    requires a !in s.actors && slot !in s.locks && slot !in s.sessions && task !in s.tasks
    ensures ValidRun(s, Begin(a, slot) + OpenFirst(a, task))
    ensures var u := After(s, Begin(a, slot) + OpenFirst(a, task));
            && u.sessions == s.sessions[slot := task] && u.registered == s.registered + {slot}
            && u.tasks == s.tasks[task := Live] && u.closes == s.closes[task := 0]
            && u.locks == s.locks && u.actors == s.actors
  {
    var m := Entered(s, a, slot, Authorising(slot));
    BeginRuns(s, a, slot);
    EnteredIsUndone(s, a, slot, Authorising(slot));
    OpenFirstRuns(m, a, slot, task);
    Chain(s, Begin(a, slot), m, OpenFirst(a, task), After(m, OpenFirst(a, task)));
  }

  /** A name that is no gateway server is refused without a trace. */
  lemma UnknownNameIsRefused(s: State, a: ActorId, slot: Slot)
    requires a !in s.actors && slot !in s.locks
    ensures ValidRun(s, Run2(StartConnect(a, slot), Acquire(a, false)))
    ensures Same(s, After(s, Run2(StartConnect(a, slot), Acquire(a, false))))
  {
    Run2Runs(s, StartConnect(a, slot), Acquire(a, false));
  }

  /** Without a token or a URL nothing changes, and an open session stays, even one that did not answer. */
  lemma DeniedConnectChangesNothing(s: State, a: ActorId, slot: Slot, task: TaskId)
    requires a !in s.actors && slot !in s.locks && task !in s.tasks
    ensures ValidRun(s, Approach(s, a, slot) + ([Authorise(a, false, task)] + []))
    ensures Same(s, After(s, Approach(s, a, slot) + ([Authorise(a, false, task)] + [])))
  {
    var m := Entered(s, a, slot, Authorising(slot));
    ApproachRuns(s, a, slot);
    EnteredIsUndone(s, a, slot, Authorising(slot));
    RunStep(m, Authorise(a, false, task), []);
    Chain(s, Approach(s, a, slot), m, [Authorise(a, false, task)] + [], Apply(m, Authorise(a, false, task)));
  }

  /** A runner that fails, or is not ready in time, is stopped; sessions and tools stay as they were. */
  lemma FailedRunnerIsStopped(s: State, a: ActorId, slot: Slot, task: TaskId, fails: bool)
    requires a !in s.actors && slot !in s.locks && task !in s.tasks
    ensures ValidRun(s, Approach(s, a, slot) + OpenNot(a, task, fails))
    ensures var u := After(s, Approach(s, a, slot) + OpenNot(a, task, fails));
            && u.sessions == s.sessions && u.registered == s.registered && u.locks == s.locks
            && u.tasks == s.tasks[task := Stopped] && u.closes == s.closes[task := 1] && u.actors == s.actors
  {
    var m := Entered(s, a, slot, Authorising(slot));
    ApproachRuns(s, a, slot);
    EnteredIsUndone(s, a, slot, Authorising(slot));
    OpenNotRuns(m, a, slot, task, fails);
    Chain(s, Approach(s, a, slot), m, OpenNot(a, task, fails), After(m, OpenNot(a, task, fails)));
  }

  /** A connect hook that fails has the new runner stopped; sessions and tools stay as they were. */
  lemma FailedHookIsUndone(s: State, a: ActorId, slot: Slot, task: TaskId)
    requires a !in s.actors && slot !in s.locks && task !in s.tasks
    ensures ValidRun(s, Approach(s, a, slot) + OpenInVain(a, task))
    ensures var u := After(s, Approach(s, a, slot) + OpenInVain(a, task));
            && u.sessions == s.sessions && u.registered == s.registered && u.locks == s.locks
            && u.tasks == s.tasks[task := Stopped] && u.closes == s.closes[task := 1] && u.actors == s.actors
  {
    var m := Entered(s, a, slot, Authorising(slot));
    ApproachRuns(s, a, slot);
    EnteredIsUndone(s, a, slot, Authorising(slot));
    OpenInVainRuns(m, a, slot, task);
    Chain(s, Approach(s, a, slot), m, OpenInVain(a, task), After(m, OpenInVain(a, task)));
  }

  /** A session that answers is kept, and its tools are registered again if the hook succeeds. */
  lemma AnsweringSessionIsReused(s: State, a: ActorId, slot: Slot, hookOk: bool)
    requires a !in s.actors && slot !in s.locks && slot in s.sessions
    ensures ValidRun(s, Begin(a, slot) + ([Probe(a, true, hookOk)] + []))
    ensures var u := After(s, Begin(a, slot) + ([Probe(a, true, hookOk)] + []));
            && u.registered == (if hookOk then s.registered + {slot} else s.registered)
            && u.sessions == s.sessions && u.locks == s.locks && u.tasks == s.tasks && u.closes == s.closes
            && u.actors == s.actors
  {
    var m := Entered(s, a, slot, Probing(slot));
    BeginRuns(s, a, slot);
    EnteredIsUndone(s, a, slot, Probing(slot));
    RunStep(m, Probe(a, true, hookOk), []);
    Chain(s, Begin(a, slot), m, [Probe(a, true, hookOk)] + [], Apply(m, Probe(a, true, hookOk)));
  }

  /** A session that does not answer is replaced: its task stops after one request, and the new one runs. */
  lemma StaleSessionIsReplaced(s: State, a: ActorId, slot: Slot, task: TaskId, hookOk: bool)
    requires a !in s.actors && slot !in s.locks && slot in s.sessions && task !in s.tasks
    requires s.sessions[slot] in s.tasks && s.sessions[slot] in s.closes
    ensures ValidRun(s, BeginStale(a, slot) + OpenNext(a, task, hookOk))
    ensures var u, prior := After(s, BeginStale(a, slot) + OpenNext(a, task, hookOk)), s.sessions[slot];
            && u.sessions == s.sessions[slot := task]
            && u.registered == (if hookOk then s.registered - {slot} else s.registered + {slot})
            && u.tasks == s.tasks[task := Live][prior := Stopped]
            && u.closes == s.closes[task := 0][prior := s.closes[prior] + 1]
            && u.locks == s.locks && u.actors == s.actors
  {
    var m := Entered(s, a, slot, Authorising(slot));
    BeginStaleRuns(s, a, slot);
    EnteredIsUndone(s, a, slot, Authorising(slot));
    OpenNextRuns(m, a, slot, task, hookOk);
    Chain(s, BeginStale(a, slot), m, OpenNext(a, task, hookOk), After(m, OpenNext(a, task, hookOk)));
  }

  // ---------------------------------------------------------------- disconnecting

  function DropSession(start: Step, a: ActorId, hookOk: bool): seq<Step> {
    Run3(start, Detach(a, hookOk), DetachDone(a))
  }

  /** A disconnect closes the session; its tools go if the hook succeeds. */
  lemma DisconnectClosesSession(s: State, a: ActorId, slot: Slot, hookOk: bool)
    requires a !in s.actors && slot in s.sessions && s.sessions[slot] in s.closes
    ensures var steps := DropSession(StartDisconnect(a, slot), a, hookOk);
            ValidRun(s, steps)
            && var u, prior := After(s, steps), s.sessions[slot];
            && u.sessions == s.sessions - {slot}
            && u.registered == (if hookOk then s.registered - {slot} else s.registered)
            && u.tasks == s.tasks[prior := Stopped] && u.closes == s.closes[prior := s.closes[prior] + 1]
            && u.locks == s.locks && u.actors == s.actors
  {
    Run3Runs(s, StartDisconnect(a, slot), Detach(a, hookOk), DetachDone(a));
  }

  /** Without a session there is nothing to disconnect. */
  lemma IdleDisconnectChangesNothing(s: State, a: ActorId, slot: Slot)
    requires a !in s.actors && slot !in s.sessions
    ensures Enabled(s, StartDisconnect(a, slot)) && Same(s, Apply(s, StartDisconnect(a, slot)))
  {}

  // ---------------------------------------------------------------- reconnecting

  /** The disconnecting half of a reconnect: it goes on to wait for the lock, for a forced refresh. */
  lemma ReconnectDropsSession(s: State, a: ActorId, slot: Slot)
    requires a !in s.actors && slot in s.sessions && s.sessions[slot] in s.closes
    ensures var steps := DropSession(StartReconnect(a, slot), a, true);
            ValidRun(s, steps)
            && var u, prior := After(s, steps), s.sessions[slot];
            && u.sessions == s.sessions - {slot} && u.registered == s.registered - {slot}
            && u.tasks == s.tasks[prior := Stopped] && u.closes == s.closes[prior := s.closes[prior] + 1]
            && u.locks == s.locks && u.actors == s.actors[a := Waiting(slot, true)]
  {
    Run3Runs(s, StartReconnect(a, slot), Detach(a, true), DetachDone(a));
  }

  /** If the disconnect hook fails the reconnect ends there, with the session closed and its tools left. */
  lemma FailedReconnectEnds(s: State, a: ActorId, slot: Slot)
    requires a !in s.actors && slot in s.sessions && s.sessions[slot] in s.closes
    ensures var steps := DropSession(StartReconnect(a, slot), a, false);
            ValidRun(s, steps)
            && var u, prior := After(s, steps), s.sessions[slot];
            && u.sessions == s.sessions - {slot} && u.registered == s.registered
            && u.tasks == s.tasks[prior := Stopped] && u.closes == s.closes[prior := s.closes[prior] + 1]
            && u.locks == s.locks && u.actors == s.actors
  {
    Run3Runs(s, StartReconnect(a, slot), Detach(a, false), DetachDone(a));
  }

  lemma ForcedEntry(s: State, a: ActorId, slot: Slot)
    requires a in s.actors && s.actors[a] == Waiting(slot, true) && slot !in s.locks
    ensures Enabled(s, Acquire(a, true)) && Apply(s, Acquire(a, true)) == Entered(s, a, slot, Authorising(slot))
  {
    EntersRuns(s, a, slot, true);
  }

  /** From the lock to the end, for a slot without a session. */
  lemma ForcedConnectRuns(s: State, a: ActorId, slot: Slot, task: TaskId)
    requires a in s.actors && s.actors[a] == Waiting(slot, true)
    requires slot !in s.locks && slot !in s.sessions && task !in s.tasks
    ensures ValidRun(s, [Acquire(a, true)] + OpenFirst(a, task))
    ensures var u := After(s, [Acquire(a, true)] + OpenFirst(a, task));
            && u.sessions == s.sessions[slot := task] && u.registered == s.registered + {slot}
            && u.tasks == s.tasks[task := Live] && u.closes == s.closes[task := 0]
            && u.locks == s.locks && u.actors == s.actors - {a}
  {
    var m := Entered(s, a, slot, Authorising(slot));
    ForcedEntry(s, a, slot);
    OpenFirstRuns(m, a, slot, task);
    RunStep(s, Acquire(a, true), OpenFirst(a, task));
    assert m.locks - {slot} == s.locks && m.actors - {a} == s.actors - {a};
  }

  /**
   A reconnect of an open slot closes its session and opens a new one: the new task runs for the
   slot, its tools are registered, the prior task has stopped after one request, and nothing is left over.
  */
  lemma ReconnectRenewsSession(s: State, a: ActorId, slot: Slot, task: TaskId)
    requires a !in s.actors && slot !in s.locks && slot in s.sessions && task !in s.tasks
    requires s.sessions[slot] in s.tasks && s.sessions[slot] in s.closes
    ensures ValidRun(s, DropSession(StartReconnect(a, slot), a, true) + ([Acquire(a, true)] + OpenFirst(a, task)))
    ensures var steps := DropSession(StartReconnect(a, slot), a, true) + ([Acquire(a, true)] + OpenFirst(a, task));
            var u, prior := After(s, steps), s.sessions[slot];
            && u.sessions == s.sessions[slot := task] && u.registered == s.registered + {slot}
            && u.tasks == s.tasks[prior := Stopped][task := Live]
            && u.closes == s.closes[prior := s.closes[prior] + 1][task := 0]
            && u.locks == s.locks && u.actors == s.actors
  {
    ReconnectDropsSession(s, a, slot);
    var m := After(s, DropSession(StartReconnect(a, slot), a, true));
    ForcedConnectRuns(m, a, slot, task);
    Chain(s, DropSession(StartReconnect(a, slot), a, true), m, [Acquire(a, true)] + OpenFirst(a, task),
          After(m, [Acquire(a, true)] + OpenFirst(a, task)));
  }

  /** A reconnect of a slot without a session connects at once. */
  lemma ReconnectOpensSession(s: State, a: ActorId, slot: Slot, task: TaskId)
    requires a !in s.actors && slot !in s.locks && slot !in s.sessions && task !in s.tasks
    ensures ValidRun(s, [StartReconnect(a, slot)] + ([Acquire(a, true)] + OpenFirst(a, task)))
    ensures var u := After(s, [StartReconnect(a, slot)] + ([Acquire(a, true)] + OpenFirst(a, task)));
            && u.sessions == s.sessions[slot := task] && u.registered == s.registered + {slot}
            && u.tasks == s.tasks[task := Live] && u.closes == s.closes[task := 0]
            && u.locks == s.locks && u.actors == s.actors
  {
    var m := Apply(s, StartReconnect(a, slot));
    assert m == State(s.sessions, s.registered, s.locks, s.tasks, s.closes, s.actors[a := Waiting(slot, true)]);
    ForcedConnectRuns(m, a, slot, task);
    RunStep(s, StartReconnect(a, slot), [Acquire(a, true)] + OpenFirst(a, task));
  }

  /** If another session has appeared meanwhile, the forced request does not reuse it but replaces it. */
  lemma ForcedRequestReplaces(s: State, a: ActorId, slot: Slot, task: TaskId, hookOk: bool)
    requires a in s.actors && s.actors[a] == Waiting(slot, true) && slot !in s.locks && slot in s.sessions
    requires task !in s.tasks && s.sessions[slot] in s.tasks && s.sessions[slot] in s.closes
    ensures ValidRun(s, [Acquire(a, true)] + OpenNext(a, task, hookOk))
    ensures var u, prior := After(s, [Acquire(a, true)] + OpenNext(a, task, hookOk)), s.sessions[slot];
            && u.sessions == s.sessions[slot := task]
            && u.tasks == s.tasks[task := Live][prior := Stopped]
            && u.closes == s.closes[task := 0][prior := s.closes[prior] + 1]
            && u.locks == s.locks && u.actors == s.actors - {a}
  {
    var m := Entered(s, a, slot, Authorising(slot));
    ForcedEntry(s, a, slot);
    OpenNextRuns(m, a, slot, task, hookOk);
    RunStep(s, Acquire(a, true), OpenNext(a, task, hookOk));
    assert m.locks - {slot} == s.locks && m.actors - {a} == s.actors - {a};
  }

  // ---------------------------------------------------------------- no request gets stuck

  /** How far a request is from its end. */
  function Distance(pc: Pc): nat {
    match pc
    case Detaching(_, _, _) => 11
    case Detached(_, _, _) => 10
    case Waiting(_, _) => 9
    case Probing(_) => 8
    case Authorising(_) => 7
    case Opening(_, _) => 6
    case Announcing(_, _) => 5
    case Retiring(_, _) => 4
    case Closing(_, _) => 3
    case Aborting(_, _) => 2
    case Listing(_) => 1
  }

  predicate IsStart(step: Step) {
    step.StartConnect? || step.StartDisconnect? || step.StartReconnect?
  }

  predicate IsRunner(step: Step) {
    step.RunnerReady? || step.RunnerFails?
  }

  /** The request is nearer to its end, or has ended, and no other request has moved. */
  ghost predicate Nearer(s: State, u: State, a: ActorId) {
    && a in s.actors
    && (a in u.actors ==> Distance(u.actors[a]) < Distance(s.actors[a]))
    && OthersStay(s, u, a)
  }

  lemma EnteringComesNearer(s: State, step: Step)
    requires Enabled(s, step) && (step.Acquire? || step.Probe? || step.Authorise?)
    ensures Nearer(s, Apply(s, step), step.actor)
  {}

  lemma OpeningComesNearer(s: State, step: Step)
    requires Enabled(s, step) && (step.Open? || step.Announce? || step.Aborted? || step.Retire?)
    ensures Nearer(s, Apply(s, step), step.actor)
  {}

  lemma EndingComesNearer(s: State, step: Step)
    requires Enabled(s, step) && (step.Closed? || step.Listed? || step.Detach? || step.DetachDone?)
    ensures Nearer(s, Apply(s, step), step.actor)
  {}

  /** Every step of a request brings it nearer to its end, or ends it, and moves no other request. */
  lemma StepComesNearer(s: State, step: Step)
    requires Enabled(s, step) && !IsStart(step) && !IsRunner(step)
    ensures Nearer(s, Apply(s, step), step.actor)
  {
    if step.Acquire? || step.Probe? || step.Authorise? {
      EnteringComesNearer(s, step);
    } else if step.Open? || step.Announce? || step.Aborted? || step.Retire? {
      OpeningComesNearer(s, step);
    } else {
      EndingComesNearer(s, step);
    }
  }

  lemma FreshTask(tasks: set<TaskId>) returns (task: TaskId)
    ensures task !in tasks
  {
    task := BoundOf(tasks);
  }

  lemma BoundOf(tasks: set<TaskId>) returns (bound: TaskId)
    ensures forall t | t in tasks :: t < bound
    decreases |tasks|
  {
    if |tasks| == 0 {
      bound := 0;
    } else {
      var t :| t in tasks;
      var rest := BoundOf(tasks - {t});
      bound := if t < rest then rest else t + 1;
      assert forall r | r in tasks :: r == t || r in tasks - {t};
    }
  }

  /** A request that holds no lock but waits for one that is free can enter; any other can take its next step. */
  lemma RequestCanStep(s: State, a: ActorId) returns (step: Step)
    requires a in s.actors && (s.actors[a].Waiting? ==> s.actors[a].slot !in s.locks)
    ensures Enabled(s, step) && !IsStart(step) && !IsRunner(step) && step.actor == a
  {
    match s.actors[a]
    case Waiting(_, _) => step := Acquire(a, true);
    case Probing(_) => step := Probe(a, false, false);
    case Authorising(_) =>
      var task := FreshTask(s.tasks.Keys);
      step := Authorise(a, false, task);
    case Opening(_, _) => step := Open(a, false);
    case Announcing(_, _) => step := Announce(a, false);
    case Aborting(_, _) => step := Aborted(a);
    case Retiring(_, _) => step := Retire(a, false);
    case Closing(_, _) => step := Closed(a);
    case Listing(_) => step := Listed(a);
    case Detaching(_, _, _) => step := Detach(a, false);
    case Detached(_, _, _) => step := DetachDone(a);
  }

  /**
   In every interleaving, while a request is in flight some request in flight can take a step, even
   if everything outside fails or stays silent: the locks cannot deadlock.
  */
  lemma NoDeadlock(steps: seq<Step>, a: ActorId) returns (step: Step)
    requires ValidRun(Initial(), steps) && a in After(Initial(), steps).actors
    ensures var s := After(Initial(), steps);
            Enabled(s, step) && !IsStart(step) && !IsRunner(step) && step.actor in s.actors
  {
    RunKeepsInvariant(Initial(), steps);
    var s := After(Initial(), steps);
    var pc := s.actors[a];
    if pc.Waiting? && pc.slot in s.locks {
      step := RequestCanStep(s, s.locks[pc.slot]);
    } else {
      step := RequestCanStep(s, a);
    }
  }
}
