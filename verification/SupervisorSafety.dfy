/** What every block of the supervisor keeps, and what holds after every run of it. */
module SupervisorSafety {
  import opened Common
  import opened SupervisorProtocol

  // ---------- Invariants ----------

  // The keys in flight are the lanes of the live calls and of the settled ones; each key
  // belongs to one call.
  ghost predicate Lanes(s: State) {
    && (forall r :: r in s.live ==>
          && r < |s.runs| && s.runs[r].agent == s.live[r].agent && s.runs[r].task == s.live[r].task
          && s.live[r] in s.inFlight && s.live[r] !in s.settled)
    && (forall r, q :: r in s.live && q in s.live && r != q ==> s.live[r] != s.live[q])
    && s.settled <= s.inFlight
    && (forall r :: r in s.inFlightRuns ==> r in s.live && s.inFlightRuns[r] == s.live[r])
  }

  ghost predicate Owned(s: State) {
    forall r :: 0 <= r < |s.runs| && s.runs[r].task.Some? ==>
      && s.runs[r].task.value < |s.tasks|
      && s.tasks[s.runs[r].task.value].owner == Some(s.runs[r].agent)
  }

  predicate Runs(s: State, r: int, t: nat) {
    0 <= r < |s.runs| && s.runs[r].task == Some(t) && s.runs[r].status == Running
  }

  // No stuck work: a task in progress has a running run.
  ghost predicate NotStuck(s: State) {
    forall t: nat :: TaskIs(s, t, InProgress) ==> exists r :: Runs(s, r, t)
  }

  // A run marked running is really being executed, unless a crash ended every call and no
  // start has repaired that yet.
  ghost predicate RunningIsLive(s: State) {
    || (forall r :: 0 <= r < |s.runs| && s.runs[r].status == Running ==> r in s.live)
    || (!s.started && s.live == map[])
  }

  ghost predicate Inv(s: State) {
    Lanes(s) && Owned(s) && NotStuck(s) && RunningIsLive(s)
  }

  // ---------- The blocks ----------

  // A call that ends before it creates a run only holds its key.
  lemma NoRunKeeps(s: State, n: State, lane: Lane)
    requires Inv(s) && lane !in s.inFlight
    requires n.runs == s.runs && n.live == s.live && n.inFlightRuns == s.inFlightRuns
    requires n.inFlight == s.inFlight + {lane} && n.settled == s.settled + {lane}
    requires n.started == s.started && |n.tasks| == |s.tasks|
    requires forall t :: 0 <= t < |s.tasks| ==>
               n.tasks[t].owner == s.tasks[t].owner
               && (n.tasks[t].status == InProgress ==> s.tasks[t].status == InProgress)
    ensures Inv(n)
  {
    forall t: nat | TaskIs(n, t, InProgress)
      ensures exists r :: Runs(n, r, t)
    {
      assert TaskIs(s, t, InProgress);
      var r :| Runs(s, r, t);
      assert Runs(n, r, t);
    }
  }

  lemma NewRunKeeps(s: State, n: State, lane: Lane)
    requires Inv(s) && s.started && lane !in s.inFlight
    requires lane.task.Some? ==> Ready(s, lane.agent, lane.task.value)
    requires n.runs == s.runs + [Run(lane.agent, lane.task, Running, "")]
    requires n.live == s.live[|s.runs| := lane]
    requires n.inFlightRuns == s.inFlightRuns[|s.runs| := lane]
    requires n.inFlight == s.inFlight + {lane} && n.settled == s.settled && n.started == s.started
    requires n.tasks == if lane.task.None? then s.tasks
                        else s.tasks[lane.task.value := s.tasks[lane.task.value].(status := InProgress)]
    ensures Inv(n)
  {
    forall t: nat | TaskIs(n, t, InProgress)
      ensures exists r :: Runs(n, r, t)
    {
      if TaskIs(s, t, InProgress) {
        var r :| Runs(s, r, t);
        assert Runs(n, r, t);
      } else {
        assert Runs(n, |s.runs|, t);
      }
    }
  }

  lemma StartLaneKeeps(c: Config, s: State, lane: Lane, messages: set<Message>, v: Verdict)
    requires Inv(s) && s.started && lane !in s.inFlight
    requires lane.task.Some? ==> Ready(s, lane.agent, lane.task.value)
    ensures Inv(StartLane(c, s, lane, messages, v)) && StartLane(c, s, lane, messages, v).started
  {
    var n := StartLane(c, s, lane, messages, v);
    if |n.runs| == |s.runs| {
      NoRunKeeps(s, n, lane);
    } else {
      NewRunKeeps(s, n, lane);
    }
  }

  // Only the rows of the started lanes change: the other ready tasks stay ready.
  lemma TryLaneFrame(c: Config, s: State, lane: Lane, messages: set<Message>, v: Verdict, t: nat)
    requires Ready(s, lane.agent, t) && lane.task != Some(t)
    ensures Ready(TryLane(c, s, lane, messages, v), lane.agent, t)
  {
  }

  lemma {:induction false} StartTasksKeeps(c: Config, s: State, agent: string, ids: seq<nat>,
                                           inbox: set<Message>, verdicts: Lane -> Verdict, n: nat)
    requires Inv(s) && s.started && n <= |ids|
    requires forall i :: 0 <= i < |ids| ==> Ready(s, agent, ids[i])
    requires forall i, j :: 0 <= i < j < |ids| ==> ids[i] < ids[j]
    ensures Inv(StartTasks(c, s, agent, ids, inbox, verdicts, n))
    ensures StartTasks(c, s, agent, ids, inbox, verdicts, n).started
    ensures forall i :: n <= i < |ids| ==>
              Ready(StartTasks(c, s, agent, ids, inbox, verdicts, n), agent, ids[i])
  {
    if n > 0 {
      StartTasksKeeps(c, s, agent, ids, inbox, verdicts, n - 1);
      var d := StartTasks(c, s, agent, ids, inbox, verdicts, n - 1);
      var lane := Lane(agent, Some(ids[n - 1]));
      var messages := Mentioning(inbox, ids[n - 1]);
      if lane !in d.inFlight {
        StartLaneKeeps(c, d, lane, messages, verdicts(lane));
      }
      forall i | n <= i < |ids|
        ensures Ready(TryLane(c, d, lane, messages, verdicts(lane)), agent, ids[i])
      {
        TryLaneFrame(c, d, lane, messages, verdicts(lane), ids[i]);
      }
    }
  }

  lemma TickAgentKeeps(c: Config, s: State, agent: string, verdicts: Lane -> Verdict)
    requires Inv(s) && s.started
    ensures Inv(TickAgent(c, s, agent, verdicts)) && TickAgent(c, s, agent, verdicts).started
  {
    var running := Count(s.runs, RunningFor(agent));
    var ids := ReadyTasks(s, agent, |s.tasks|);
    if running < c.maxParallelPerAgent {
      if ids != [] {
        assert forall i :: 0 <= i < |ids| ==> ids[i] in ids;
        StartTasksKeeps(c, s, agent, ids, Inbox(s, agent), verdicts,
                        Min(c.maxParallelPerAgent - running, |ids|));
      } else if Lane(agent, None) !in s.inFlight {
        StartLaneKeeps(c, s, Lane(agent, None), Inbox(s, agent), verdicts(Lane(agent, None)));
      }
    }
  }

  lemma {:induction false} TickAgentsKeeps(c: Config, s: State, agents: seq<string>,
                                           verdicts: Lane -> Verdict, n: nat)
    requires Inv(s) && s.started && n <= |agents|
    ensures Inv(TickAgents(c, s, agents, verdicts, n)) && TickAgents(c, s, agents, verdicts, n).started
  {
    if n > 0 {
      TickAgentsKeeps(c, s, agents, verdicts, n - 1);
      TickAgentKeeps(c, TickAgents(c, s, agents, verdicts, n - 1), agents[n - 1], verdicts);
    }
  }

  // Changing the status of one run, and requeueing or settling its own task, strands nothing.
  lemma OneRunChanges(s: State, n: State, r: nat)
    requires Inv(s) && r < |s.runs|
    requires |n.runs| == |s.runs| && |n.tasks| == |s.tasks|
    requires n.runs == s.runs[r := n.runs[r]] && n.runs[r].status != Running
    requires n.runs[r].task == s.runs[r].task && n.runs[r].agent == s.runs[r].agent
    requires forall t :: 0 <= t < |s.tasks| && s.runs[r].task != Some(t) ==> n.tasks[t] == s.tasks[t]
    requires forall t :: 0 <= t < |s.tasks| ==> n.tasks[t].owner == s.tasks[t].owner
    requires s.runs[r].task.Some? ==> !TaskIs(n, s.runs[r].task.value, InProgress)
    ensures Owned(n) && NotStuck(n)
  {
    forall t: nat | TaskIs(n, t, InProgress)
      ensures exists q :: Runs(n, q, t)
    {
      assert TaskIs(s, t, InProgress);
      var q :| Runs(s, q, t);
      assert Runs(n, q, t);
    }
  }

  lemma SettleKeeps(c: Config, s: State, r: nat, o: Outcome)
    requires Inv(s) && r in s.live
    ensures Inv(SettleRun(c, s, r, o))
  {
    var d := Conclude(c, s, r, s.live[r].task, o);
    ConcludeFrame(c, s, r, s.live[r].task, o);
    OneRunChanges(s, d, r);
    SettledKeeps(d, SettleRun(c, s, r, o), s.live[r], r);
  }

  lemma ConcludeFrame(c: Config, s: State, r: nat, task: Option<nat>, o: Outcome)
    requires r < |s.runs| && s.runs[r].task == task
    ensures var n := Conclude(c, s, r, task, o);
            && n == s.(runs := n.runs, tasks := n.tasks)
            && |n.runs| == |s.runs| && |n.tasks| == |s.tasks|
            && n.runs == s.runs[r := n.runs[r]] && n.runs[r].status != Running
            && n.runs[r].task == s.runs[r].task && n.runs[r].agent == s.runs[r].agent
            && (forall t :: 0 <= t < |s.tasks| && task != Some(t) ==> n.tasks[t] == s.tasks[t])
            && (forall t :: 0 <= t < |s.tasks| ==> n.tasks[t].owner == s.tasks[t].owner)
            && (task.Some? ==> !TaskIs(n, task.value, InProgress))
  {
  }

  // The call of a run that is no longer running may leave, and keeps its key until then.
  lemma SettledKeeps(s: State, n: State, lane: Lane, r: nat)
    requires Inv(s) && r in s.live && s.live[r] == lane && s.runs[r].status != Running
    requires n == s.(agents := n.agents, inFlightRuns := Without(s.inFlightRuns, r),
                     live := Without(s.live, r), settled := s.settled + {lane})
    ensures Inv(n)
  {
    forall t: nat | TaskIs(n, t, InProgress)
      ensures exists q :: Runs(n, q, t)
    {
      assert TaskIs(s, t, InProgress);
      var q :| Runs(s, q, t);
      assert Runs(n, q, t);
    }
  }

  // The same when nothing of the supervisor's own fields changes.
  lemma RunEndKeeps(s: State, n: State, r: nat)
    requires Inv(s) && r < |s.runs|
    requires n == s.(runs := n.runs, tasks := n.tasks, agents := n.agents)
    requires |n.runs| == |s.runs| && |n.tasks| == |s.tasks|
    requires n.runs == s.runs[r := n.runs[r]] && n.runs[r].status != Running
    requires n.runs[r].task == s.runs[r].task && n.runs[r].agent == s.runs[r].agent
    requires n.tasks == Requeue(s, s.runs[r].task).tasks
    ensures Inv(n)
  {
    OneRunChanges(s, n, r);
  }

  lemma StopKeeps(s: State, r: nat)
    requires Inv(s) && r < |s.runs|
    ensures Inv(Stop(s, r))
  {
    RunEndKeeps(s, Stop(s, r), r);
  }

  lemma {:induction false} StopRunsKeeps(s: State, agent: string, n: nat)
    requires Inv(s) && n <= |s.runs|
    ensures Inv(StopRunsOf(s, agent, n))
  {
    if n > 0 {
      StopRunsKeeps(s, agent, n - 1);
      StopKeeps(StopRunsOf(s, agent, n - 1), |s.runs| - n);
    }
  }

  lemma RecoverRunKeeps(s: State, r: nat)
    requires Inv(s) && r < |s.runs|
    ensures Inv(RecoverRun(s, r))
  {
    if s.runs[r].status == Running {
      RunEndKeeps(s, RecoverRun(s, r), r);
    }
  }

  // ---------- Crash recovery ----------

  // Recovery touches only what was running: those runs fail, their tasks go back to
  // pending, their agents become idle unless stopped.
  ghost predicate RecoveredFrom(s: State, n: State, from: nat) {
    && |n.runs| == |s.runs| && |n.tasks| == |s.tasks| && n.agents.Keys == s.agents.Keys
    && (forall i :: 0 <= i < |s.runs| ==>
          n.runs[i] == if i >= from && s.runs[i].status == Running
                       then s.runs[i].(status := Failed, error := STALE) else s.runs[i])
    && (forall t :: 0 <= t < |s.tasks| ==>
          n.tasks[t] == s.tasks[t]
          || (s.tasks[t].status == InProgress && n.tasks[t] == s.tasks[t].(status := Pending)))
    && (forall a :: a in s.agents ==>
          n.agents[a] == s.agents[a] || (s.agents[a] != Retired && n.agents[a] == Idle))
  }

  lemma RecoverRunFrame(s: State, d: State, r: nat)
    requires r < |s.runs| && RecoveredFrom(s, d, r + 1)
    ensures RecoveredFrom(s, RecoverRun(d, r), r)
  {
    var n := RecoverRun(d, r);
    assert d.runs[r] == s.runs[r];
    if d.runs[r].status == Running {
      assert n.runs == d.runs[r := s.runs[r].(status := Failed, error := STALE)];
    }
  }

  lemma {:induction false} RecoverRunsKeeps(s: State, n: nat)
    requires Inv(s) && n <= |s.runs|
    ensures Inv(RecoverRuns(s, n))
    ensures RecoveredFrom(s, RecoverRuns(s, n), |s.runs| - n)
    ensures RecoverRuns(s, n).live == s.live && RecoverRuns(s, n).started == s.started
  {
    if n > 0 {
      RecoverRunsKeeps(s, n - 1);
      OneMoreRecovered(s, RecoverRuns(s, n - 1), |s.runs| - n);
    }
  }

  lemma OneMoreRecovered(s: State, d: State, r: nat)
    requires Inv(d) && r < |s.runs| && RecoveredFrom(s, d, r + 1)
    ensures var n := RecoverRun(d, r);
            Inv(n) && RecoveredFrom(s, n, r) && n.live == d.live && n.started == d.started
  {
    RecoverRunKeeps(d, r);
    RecoverRunFrame(s, d, r);
    RecoverRunEndsNothing(d, r);
  }

  lemma RecoverRunEndsNothing(s: State, r: nat)
    requires r < |s.runs|
    ensures RecoverRun(s, r).live == s.live && RecoverRun(s, r).started == s.started
  {
  }

  // After a start, however the supervisor went down: no run is running, no task is in
  // progress, nothing else was rewritten and no stopped agent was revived.
  lemma StartRepairs(s: State)
    requires Inv(s) && !s.started
    ensures var n := StartUp(s);
            && Inv(n) && n.started && RecoveredFrom(s, n, 0)
            && (forall r :: 0 <= r < |n.runs| ==> n.runs[r].status != Running)
            && (forall t: nat :: !TaskIs(n, t, InProgress))
            && (forall a :: a in s.agents && s.agents[a] == Retired ==> n.agents[a] == Retired)
  {
    RecoverRunsKeeps(s, |s.runs|);
    var n := StartUp(s);
    var d := RecoverRuns(s, |s.runs|);
    assert forall r, t: nat :: !Runs(d, r, t);
    assert forall t: nat :: TaskIs(n, t, InProgress) ==> TaskIs(d, t, InProgress);
  }

  // ---------- Every run ----------

  lemma StepKeepsInv(c: Config, s: State, e: Event)
    requires Inv(s)
    ensures Inv(Step(c, s, e))
  {
    match e
    case Tick(botFound, verdicts) =>
      if s.started && botFound {
        var agents := ActiveAgents(s, |s.roster|);
        TickAgentsKeeps(c, s, agents, verdicts, |agents|);
      }
    case Settle(r, o) =>
      if r in s.live {
        SettleKeeps(c, s, r, o);
      }
    case StopRun(r) =>
      if r < |s.runs| {
        StopKeeps(s, r);
      }
    case Reap(a) =>
      if a in s.agents {
        KeepsWork(s, s.(agents := s.agents[a := Retired]));
        StopRunsKeeps(s.(agents := s.agents[a := Retired]), a, |s.runs|);
      }
    case Start =>
      if !s.started {
        StartRepairs(s);
      }
    case AddTask(owner, blocked) =>
      var n := Step(c, s, e);
      forall t: nat | TaskIs(n, t, InProgress)
        ensures exists r :: Runs(n, r, t)
      {
        assert TaskIs(s, t, InProgress);
        var r :| Runs(s, r, t);
        assert Runs(n, r, t);
      }
    case _ => KeepsWork(s, Step(c, s, e));
  }

  // Blocks that touch no run and no task.
  lemma KeepsWork(s: State, n: State)
    requires Inv(s) && n.runs == s.runs && n.tasks == s.tasks
    ensures Owned(n) && NotStuck(n)
  {
    forall t: nat | TaskIs(n, t, InProgress)
      ensures exists r :: Runs(n, r, t)
    {
      assert TaskIs(s, t, InProgress);
      var r :| Runs(s, r, t);
      assert Runs(n, r, t);
    }
  }

  lemma {:induction false} EveryRunKeepsInv(c: Config, events: seq<Event>)
    ensures Inv(Play(c, INITIAL, events))
  {
    if events != [] {
      EveryRunKeepsInv(c, events[..|events| - 1]);
      StepKeepsInv(c, Play(c, INITIAL, events[..|events| - 1]), events[|events| - 1]);
    }
  }

  // ---------- Single live execution ----------

  // At most one call executes a task at a time, even when a stop has already put the
  // task back to pending while the stopped call winds down.
  lemma OneLiveExecution(s: State, r: nat, q: nat, t: nat)
    requires Inv(s) && r in s.live && q in s.live
    requires s.runs[r].task == Some(t) && s.runs[q].task == Some(t)
    ensures r == q
  {
  }

  // So the late requeue of a stopped run takes the task from nobody: when a stopped run
  // settles, no other run of the task is running and the task is not in progress, even if
  // the supervisor was destroyed or started again meanwhile.
  lemma LateRequeueIsHarmless(c: Config, s: State, r: nat, t: nat, o: Outcome)
    requires Inv(s) && r in s.live
    requires s.runs[r].status == Stopped && s.runs[r].task == Some(t)
    ensures forall q :: !Runs(s, q, t)
    ensures !TaskIs(s, t, InProgress)
    ensures SettleRun(c, s, r, o).tasks == s.tasks && SettleRun(c, s, r, o).runs == s.runs
  {
  }

  // ---------- Run status is one-way ----------

  ghost predicate RunsOnlyEnd(s: State, n: State) {
    && |s.runs| <= |n.runs|
    && forall r :: 0 <= r < |s.runs| ==>
         && n.runs[r].agent == s.runs[r].agent && n.runs[r].task == s.runs[r].task
         && (s.runs[r].status != Running ==> n.runs[r].status != Running)
  }

  lemma EndsCompose(a: State, b: State, c: State)
    requires RunsOnlyEnd(a, b) && RunsOnlyEnd(b, c)
    ensures RunsOnlyEnd(a, c)
  {
  }

  lemma {:induction false} StartTasksOnlyEnd(c: Config, s: State, agent: string, ids: seq<nat>,
                                             inbox: set<Message>, verdicts: Lane -> Verdict, n: nat)
    requires n <= |ids|
    ensures RunsOnlyEnd(s, StartTasks(c, s, agent, ids, inbox, verdicts, n))
  {
    if n > 0 {
      StartTasksOnlyEnd(c, s, agent, ids, inbox, verdicts, n - 1);
    }
  }

  lemma TickAgentOnlyEnd(c: Config, s: State, agent: string, verdicts: Lane -> Verdict)
    ensures RunsOnlyEnd(s, TickAgent(c, s, agent, verdicts))
  {
    var running := Count(s.runs, RunningFor(agent));
    var ids := ReadyTasks(s, agent, |s.tasks|);
    if running < c.maxParallelPerAgent && ids != [] {
      StartTasksOnlyEnd(c, s, agent, ids, Inbox(s, agent), verdicts,
                        Min(c.maxParallelPerAgent - running, |ids|));
    }
  }

  lemma {:induction false} TickAgentsOnlyEnd(c: Config, s: State, agents: seq<string>,
                                             verdicts: Lane -> Verdict, n: nat)
    requires n <= |agents|
    ensures RunsOnlyEnd(s, TickAgents(c, s, agents, verdicts, n))
  {
    if n > 0 {
      var d := TickAgents(c, s, agents, verdicts, n - 1);
      TickAgentsOnlyEnd(c, s, agents, verdicts, n - 1);
      TickAgentOnlyEnd(c, d, agents[n - 1], verdicts);
      EndsCompose(s, d, TickAgent(c, d, agents[n - 1], verdicts));
    }
  }

  lemma {:induction false} StopRunsOnlyEnd(s: State, agent: string, n: nat)
    requires n <= |s.runs|
    ensures RunsOnlyEnd(s, StopRunsOf(s, agent, n))
  {
    if n > 0 {
      StopRunsOnlyEnd(s, agent, n - 1);
    }
  }

  lemma SettleOnlyEnds(c: Config, s: State, r: nat, o: Outcome)
    requires Inv(s)
    ensures RunsOnlyEnd(s, Step(c, s, Settle(r, o)))
  {
    if r in s.live {
      ConcludeFrame(c, s, r, s.live[r].task, o);
    }
  }

  lemma StartOnlyEnds(s: State)
    requires Inv(s)
    ensures RunsOnlyEnd(s, StartUp(s))
  {
    RecoverRunsKeeps(s, |s.runs|);
  }

  lemma StepOnlyEnds(c: Config, s: State, e: Event)
    requires Inv(s)
    ensures RunsOnlyEnd(s, Step(c, s, e))
  {
    match e
    case Tick(botFound, verdicts) =>
      var agents := ActiveAgents(s, |s.roster|);
      TickAgentsOnlyEnd(c, s, agents, verdicts, |agents|);
    case Reap(a) =>
      if a in s.agents {
        StopRunsOnlyEnd(s.(agents := s.agents[a := Retired]), a, |s.runs|);
      }
    case Start => StartOnlyEnds(s);
    case Settle(r, o) => SettleOnlyEnds(c, s, r, o);
    case _ =>
  }

  // No run ever returns to running, over any run of the supervisor.
  lemma {:induction false} NoRunRevives(c: Config, s: State, events: seq<Event>)
    requires Inv(s)
    ensures Inv(Play(c, s, events)) && RunsOnlyEnd(s, Play(c, s, events))
  {
    if events != [] {
      var d := Play(c, s, events[..|events| - 1]);
      NoRunRevives(c, s, events[..|events| - 1]);
      StepKeepsInv(c, d, events[|events| - 1]);
      StepOnlyEnds(c, d, events[|events| - 1]);
      EndsCompose(s, d, Step(c, d, events[|events| - 1]));
    }
  }
}
