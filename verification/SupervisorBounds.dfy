/** How many runs there can be: at one time per agent, and ever per task. */
module SupervisorBounds {
  import opened Common
  import opened SupervisorProtocol
  import opened SupervisorSafety

  // ---------- Capacity ----------

  ghost predicate Capacity(c: Config, s: State) {
    && (forall a :: Count(s.runs, RunningFor(a)) <= c.maxParallelPerAgent)
    && (c.quota.Some? ==>
          && Count(s.runs, AnyRunning()) <= c.quota.value.maxActiveRuns
          && forall a :: Count(s.runs, RunningFor(a)) <= c.quota.value.maxParallelRunsPerAgent)
  }

  lemma RunEndsCapacity(c: Config, s: State, n: State, r: nat)
    requires Capacity(c, s) && r < |s.runs| && |n.runs| == |s.runs|
    requires n.runs == s.runs[r := n.runs[r]] && n.runs[r].status != Running
    ensures Capacity(c, n)
  {
    forall a ensures Count(n.runs, RunningFor(a)) <= Count(s.runs, RunningFor(a)) {
      CountUpdate(s.runs, r, n.runs[r], RunningFor(a));
    }
    CountUpdate(s.runs, r, n.runs[r], AnyRunning());
  }

  lemma StartLaneCapacity(c: Config, s: State, lane: Lane, messages: set<Message>, v: Verdict)
    requires Capacity(c, s) && Count(s.runs, RunningFor(lane.agent)) < c.maxParallelPerAgent
    ensures var n := StartLane(c, s, lane, messages, v);
            && Capacity(c, n)
            && Count(n.runs, RunningFor(lane.agent)) <= Count(s.runs, RunningFor(lane.agent)) + 1
  {
    var n := StartLane(c, s, lane, messages, v);
    if |n.runs| != |s.runs| {
      var run := Run(lane.agent, lane.task, Running, "");
      assert n.runs == s.runs + [run];
      forall a ensures Count(n.runs, RunningFor(a))
                       == Count(s.runs, RunningFor(a)) + if a == lane.agent then 1 else 0
      {
        CountAppend(s.runs, run, RunningFor(a));
      }
      CountAppend(s.runs, run, AnyRunning());
    } else {
      assert n.runs == s.runs;
    }
  }

  lemma {:induction false} StartTasksCapacity(c: Config, s: State, agent: string, ids: seq<nat>,
                                              inbox: set<Message>, verdicts: Lane -> Verdict, n: nat)
    requires Capacity(c, s) && n <= |ids|
    requires Count(s.runs, RunningFor(agent)) + n <= c.maxParallelPerAgent
    ensures var d := StartTasks(c, s, agent, ids, inbox, verdicts, n);
            Capacity(c, d) && Count(d.runs, RunningFor(agent)) <= Count(s.runs, RunningFor(agent)) + n
  {
    if n > 0 {
      StartTasksCapacity(c, s, agent, ids, inbox, verdicts, n - 1);
      var d := StartTasks(c, s, agent, ids, inbox, verdicts, n - 1);
      var lane := Lane(agent, Some(ids[n - 1]));
      StartLaneCapacity(c, d, lane, Mentioning(inbox, ids[n - 1]), verdicts(lane));
    }
  }

  lemma TickAgentCapacity(c: Config, s: State, agent: string, verdicts: Lane -> Verdict)
    requires Capacity(c, s)
    ensures Capacity(c, TickAgent(c, s, agent, verdicts))
  {
    var running := Count(s.runs, RunningFor(agent));
    var ids := ReadyTasks(s, agent, |s.tasks|);
    if running < c.maxParallelPerAgent {
      if ids != [] {
        StartTasksCapacity(c, s, agent, ids, Inbox(s, agent), verdicts,
                           Min(c.maxParallelPerAgent - running, |ids|));
      } else {
        StartLaneCapacity(c, s, Lane(agent, None), Inbox(s, agent), verdicts(Lane(agent, None)));
      }
    }
  }

  lemma {:induction false} TickAgentsCapacity(c: Config, s: State, agents: seq<string>,
                                              verdicts: Lane -> Verdict, n: nat)
    requires Capacity(c, s) && n <= |agents|
    ensures Capacity(c, TickAgents(c, s, agents, verdicts, n))
  {
    if n > 0 {
      TickAgentsCapacity(c, s, agents, verdicts, n - 1);
      TickAgentCapacity(c, TickAgents(c, s, agents, verdicts, n - 1), agents[n - 1], verdicts);
    }
  }

  lemma {:induction false} StopRunsCapacity(c: Config, s: State, agent: string, n: nat)
    requires Capacity(c, s) && n <= |s.runs|
    ensures Capacity(c, StopRunsOf(s, agent, n))
  {
    if n > 0 {
      StopRunsCapacity(c, s, agent, n - 1);
      var d := StopRunsOf(s, agent, n - 1);
      RunEndsCapacity(c, d, Stop(d, |s.runs| - n), |s.runs| - n);
    }
  }

  lemma {:induction false} RecoverRunsCapacity(c: Config, s: State, n: nat)
    requires Capacity(c, s) && n <= |s.runs|
    ensures Capacity(c, RecoverRuns(s, n))
  {
    if n > 0 {
      RecoverRunsCapacity(c, s, n - 1);
      var d := RecoverRuns(s, n - 1);
      if d.runs[|s.runs| - n].status == Running {
        RunEndsCapacity(c, d, RecoverRun(d, |s.runs| - n), |s.runs| - n);
      }
    }
  }

  lemma StepKeepsCapacity(c: Config, s: State, e: Event)
    requires Inv(s) && Capacity(c, s)
    ensures Capacity(c, Step(c, s, e))
  {
    var n := Step(c, s, e);
    match e
    case Tick(botFound, verdicts) =>
      var agents := ActiveAgents(s, |s.roster|);
      TickAgentsCapacity(c, s, agents, verdicts, |agents|);
    case Settle(r, o) =>
      if r in s.live {
        ConcludeFrame(c, s, r, s.live[r].task, o);
        RunEndsCapacity(c, s, n, r);
      }
    case StopRun(r) =>
      if r < |s.runs| {
        RunEndsCapacity(c, s, n, r);
      }
    case Reap(a) =>
      if a in s.agents {
        StopRunsCapacity(c, s.(agents := s.agents[a := Retired]), a, |s.runs|);
      }
    case Start => RecoverRunsCapacity(c, s, |s.runs|);
    case _ => assert n.runs == s.runs;
  }

  // In every reachable state of every run, stops and crashes included.
  lemma {:induction false} CapacityAlways(c: Config, events: seq<Event>)
    ensures Inv(Play(c, INITIAL, events)) && Capacity(c, Play(c, INITIAL, events))
  {
    EveryRunKeepsInv(c, events);
    if events != [] {
      CapacityAlways(c, events[..|events| - 1]);
      StepKeepsCapacity(c, Play(c, INITIAL, events[..|events| - 1]), events[|events| - 1]);
    }
  }

  // ---------- Bounded retries ----------

  // No stops, restarts or outside edits.
  predicate Undisturbed(e: Event) {
    !e.StopRun? && !e.Reap? && !e.Destroy? && !e.Crash?
  }

  ghost predicate Attempts(c: Config, s: State, t: nat)
    requires t < |s.tasks|
  {
    var all, running, failed :=
      Count(s.runs, OfTask(t)), Count(s.runs, RunningOn(t)), Count(s.runs, FailedOn(t));
    match s.tasks[t].status
    case Pending => running == 0 && all == failed && failed < c.failedRunLimit
    case InProgress => running == 1 && all == failed + 1 && failed < c.failedRunLimit
    case _ => running == 0 && all <= c.failedRunLimit
  }

  ghost predicate RetryInv(c: Config, s: State) {
    && (forall t :: 0 <= t < |s.tasks| ==> Attempts(c, s, t))
    && (forall r :: r in s.live && r < |s.runs| ==> s.runs[r].status == Running)
    && (!s.started ==> s.runs == [])
  }

  // The counts of one task after one run is added.
  lemma CountsAppend(runs: seq<Run>, r: Run, t: nat)
    ensures Count(runs + [r], OfTask(t)) == Count(runs, OfTask(t)) + if r.task == Some(t) then 1 else 0
    ensures Count(runs + [r], RunningOn(t))
            == Count(runs, RunningOn(t)) + if r.task == Some(t) && r.status == Running then 1 else 0
    ensures Count(runs + [r], FailedOn(t))
            == Count(runs, FailedOn(t)) + if r.task == Some(t) && r.status == Failed then 1 else 0
  {
  }

  // The counts of one task after a running run ends.
  lemma CountsEnd(runs: seq<Run>, i: nat, r: Run, t: nat)
    requires i < |runs| && runs[i].status == Running && r.task == runs[i].task && r.status != Running
    ensures Count(runs[i := r], OfTask(t)) == Count(runs, OfTask(t))
    ensures Count(runs[i := r], RunningOn(t))
            == Count(runs, RunningOn(t)) - if r.task == Some(t) then 1 else 0
    ensures Count(runs[i := r], FailedOn(t))
            == Count(runs, FailedOn(t)) + if r.task == Some(t) && r.status == Failed then 1 else 0
    ensures r.task == Some(t) ==> Count(runs, RunningOn(t)) >= 1
  {
    CountUpdate(runs, i, r, OfTask(t));
    CountUpdate(runs, i, r, RunningOn(t));
    CountUpdate(runs, i, r, FailedOn(t));
  }

  lemma StartLaneRetries(c: Config, s: State, lane: Lane, messages: set<Message>, v: Verdict)
    requires RetryInv(c, s) && s.started
    requires lane.task.Some? ==> Ready(s, lane.agent, lane.task.value)
    ensures RetryInv(c, StartLane(c, s, lane, messages, v)) && StartLane(c, s, lane, messages, v).started
  {
    var n := StartLane(c, s, lane, messages, v);
    var run := Run(lane.agent, lane.task, Running, "");
    forall t | 0 <= t < |n.tasks|
      ensures Attempts(c, n, t)
    {
      assert Attempts(c, s, t);
      if |n.runs| == |s.runs| {
        assert n.runs == s.runs;
      } else {
        CountsAppend(s.runs, run, t);
      }
    }
  }

  lemma {:induction false} StartTasksRetries(c: Config, s: State, agent: string, ids: seq<nat>,
                                             inbox: set<Message>, verdicts: Lane -> Verdict, n: nat)
    requires Inv(s) && RetryInv(c, s) && s.started && n <= |ids|
    requires forall i :: 0 <= i < |ids| ==> Ready(s, agent, ids[i])
    requires forall i, j :: 0 <= i < j < |ids| ==> ids[i] < ids[j]
    ensures var d := StartTasks(c, s, agent, ids, inbox, verdicts, n);
            RetryInv(c, d) && d.started
  {
    if n > 0 {
      StartTasksRetries(c, s, agent, ids, inbox, verdicts, n - 1);
      StartTasksKeeps(c, s, agent, ids, inbox, verdicts, n - 1);
      var d := StartTasks(c, s, agent, ids, inbox, verdicts, n - 1);
      var lane := Lane(agent, Some(ids[n - 1]));
      StartLaneRetries(c, d, lane, Mentioning(inbox, ids[n - 1]), verdicts(lane));
    }
  }

  lemma TickAgentRetries(c: Config, s: State, agent: string, verdicts: Lane -> Verdict)
    requires Inv(s) && RetryInv(c, s) && s.started
    ensures var d := TickAgent(c, s, agent, verdicts);
            RetryInv(c, d) && d.started
  {
    var running := Count(s.runs, RunningFor(agent));
    var ids := ReadyTasks(s, agent, |s.tasks|);
    if running < c.maxParallelPerAgent {
      if ids != [] {
        assert forall i :: 0 <= i < |ids| ==> ids[i] in ids;
        StartTasksRetries(c, s, agent, ids, Inbox(s, agent), verdicts,
                          Min(c.maxParallelPerAgent - running, |ids|));
      } else {
        StartLaneRetries(c, s, Lane(agent, None), Inbox(s, agent), verdicts(Lane(agent, None)));
      }
    }
  }

  lemma {:induction false} TickAgentsRetries(c: Config, s: State, agents: seq<string>,
                                             verdicts: Lane -> Verdict, n: nat)
    requires Inv(s) && RetryInv(c, s) && s.started && n <= |agents|
    ensures var d := TickAgents(c, s, agents, verdicts, n);
            Inv(d) && RetryInv(c, d) && d.started
  {
    if n > 0 {
      TickAgentsRetries(c, s, agents, verdicts, n - 1);
      var d := TickAgents(c, s, agents, verdicts, n - 1);
      TickAgentKeeps(c, d, agents[n - 1], verdicts);
      TickAgentRetries(c, d, agents[n - 1], verdicts);
    }
  }

  lemma SettleRetries(c: Config, s: State, r: nat, o: Outcome)
    requires Inv(s) && RetryInv(c, s) && r in s.live
    ensures RetryInv(c, SettleRun(c, s, r, o))
  {
    var d, n := Conclude(c, s, r, s.live[r].task, o), SettleRun(c, s, r, o);
    ConcludeFrame(c, s, r, s.live[r].task, o);
    forall t | 0 <= t < |n.tasks|
      ensures Attempts(c, n, t)
    {
      assert Attempts(c, s, t);
      CountsEnd(s.runs, r, n.runs[r], t);
      if o.Failure? {
        assert SetRun(s, r, Failed, o.stored).runs == n.runs;
      }
    }
  }

  lemma StepKeepsRetries(c: Config, s: State, e: Event)
    requires Inv(s) && RetryInv(c, s) && c.failedRunLimit >= 1 && Undisturbed(e)
    ensures RetryInv(c, Step(c, s, e))
  {
    var n := Step(c, s, e);
    if e.Tick? {
      if s.started && e.botFound {
        var agents := ActiveAgents(s, |s.roster|);
        TickAgentsRetries(c, s, agents, e.verdicts, |agents|);
      }
    } else if e.Settle? {
      if e.run in s.live {
        SettleRetries(c, s, e.run, e.outcome);
      }
    } else if e.AddTask? {
      AddTaskRetries(c, s, e.owner, e.blocked);
    } else {
      assert n.runs == s.runs && n.tasks == s.tasks;
      assert forall t :: 0 <= t < |n.tasks| && Attempts(c, s, t) ==> Attempts(c, n, t);
    }
  }

  lemma AddTaskRetries(c: Config, s: State, owner: Option<string>, blocked: bool)
    requires Inv(s) && RetryInv(c, s) && c.failedRunLimit >= 1
    ensures RetryInv(c, s.(tasks := s.tasks + [Task(owner, blocked, Pending)]))
  {
    var n := s.(tasks := s.tasks + [Task(owner, blocked, Pending)]);
    CountZero(s.runs, OfTask(|s.tasks|));
    CountZero(s.runs, RunningOn(|s.tasks|));
    CountZero(s.runs, FailedOn(|s.tasks|));
    forall t | 0 <= t < |n.tasks|
      ensures Attempts(c, n, t)
    {
      assert t < |s.tasks| ==> Attempts(c, s, t);
    }
  }

  lemma {:induction false} RetriesAlways(c: Config, events: seq<Event>)
    requires c.failedRunLimit >= 1 && forall e :: e in events ==> Undisturbed(e)
    ensures Inv(Play(c, INITIAL, events)) && RetryInv(c, Play(c, INITIAL, events))
  {
    EveryRunKeepsInv(c, events);
    if events != [] {
      var before := events[..|events| - 1];
      assert forall e :: e in before ==> e in events;
      RetriesAlways(c, before);
      assert events[|events| - 1] in events;
      StepKeepsRetries(c, Play(c, INITIAL, before), events[|events| - 1]);
    }
  }

  // A task is dispatched at most `failedRunLimit` times before it is completed or failed.
  lemma DispatchedAtMostLimitTimes(c: Config, events: seq<Event>, t: nat)
    requires c.failedRunLimit >= 1 && forall e :: e in events ==> Undisturbed(e)
    requires t < |Play(c, INITIAL, events).tasks|
    ensures Count(Play(c, INITIAL, events).runs, OfTask(t)) <= c.failedRunLimit
  {
    RetriesAlways(c, events);
    assert Attempts(c, Play(c, INITIAL, events), t);
  }

  // What is left of the limit strictly shrinks each time a failed run requeues its task.
  lemma RequeueUsesUpTheLimit(c: Config, s: State, r: nat, t: nat, o: Outcome)
    requires Inv(s) && RetryInv(c, s) && r in s.live && s.runs[r].task == Some(t)
    requires TaskIs(SettleRun(c, s, r, o), t, Pending)
    ensures o.Failure? && o.retryable
    ensures var n := SettleRun(c, s, r, o);
            0 < c.failedRunLimit - Count(n.runs, FailedOn(t)) == c.failedRunLimit - Count(s.runs, FailedOn(t)) - 1
  {
    var n := SettleRun(c, s, r, o);
    ConcludeFrame(c, s, r, s.live[r].task, o);
    assert Attempts(c, s, t);
    SettleRetries(c, s, r, o);
    assert Attempts(c, n, t);
    CountsEnd(s.runs, r, n.runs[r], t);
  }

  // A preflight rejection gives the task up without creating a run.
  lemma RejectionCreatesNoRun(c: Config, s: State, agent: string, t: nat, messages: set<Message>)
    requires Ready(s, agent, t) && QuotaAllows(c, s, agent)
    ensures var n := StartLane(c, s, Lane(agent, Some(t)), messages, Reject);
            n.runs == s.runs && n.live == s.live && TaskIs(n, t, GivenUp)
            && n.unread == s.unread - messages
  {
  }
}
