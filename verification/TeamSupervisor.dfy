/**
 The team store rows and the supervisor that updates them in place, block by block. Each
 block is proved to be an event of SupervisorProtocol, and the object always stands where
 its events have led, across restarts too: so what holds of every run holds of it.
 */
module TeamSupervisor {
  import opened Common
  import opened SupervisorBounds
  import opened SupervisorProtocol
  import opened SupervisorSafety

  // The rows of one team.
  class TeamStore {
    var runs: seq<Run>
    var tasks: seq<Task>
    var roster: seq<string>
    var agents: map<string, AgentStatus>
    var unread: set<Message>

    constructor ()
      ensures runs == [] && tasks == [] && roster == [] && agents == map[] && unread == {}
    {
      runs, tasks, roster, agents, unread := [], [], [], map[], {};
    }

    method AddAgent(name: string)
      modifies `roster, `agents
      ensures roster == if name in old(agents) then old(roster) else old(roster) + [name]
      ensures agents == if name in old(agents) then old(agents) else old(agents)[name := Idle]
    {
      if name !in agents {
        roster, agents := roster + [name], agents[name := Idle];
      }
    }

    method AddTask(owner: Option<string>, blocked: bool)
      modifies `tasks
      ensures tasks == old(tasks) + [Task(owner, blocked, Pending)]
    {
      tasks := tasks + [Task(owner, blocked, Pending)];
    }

    method SendMessage(m: Message)
      modifies `unread
      ensures unread == old(unread) + {m}
    {
      unread := unread + {m};
    }

    method CreateRun(agent: string, task: Option<nat>) returns (id: nat)
      modifies `runs
      ensures id == |old(runs)| && runs == old(runs) + [Run(agent, task, Running, "")]
    {
      id := |runs|;
      runs := runs + [Run(agent, task, Running, "")];
    }

    method UpdateRun(r: nat, status: RunStatus, error: string)
      requires r < |runs|
      modifies `runs
      ensures runs == old(runs)[r := old(runs)[r].(status := status, error := error)]
    {
      runs := runs[r := runs[r].(status := status, error := error)];
    }

    method UpdateTask(t: nat, status: TaskStatus)
      modifies `tasks
      ensures tasks == if t < |old(tasks)| then old(tasks)[t := old(tasks)[t].(status := status)]
                       else old(tasks)
    {
      if t < |tasks| {
        tasks := tasks[t := tasks[t].(status := status)];
      }
    }

    method SetAgentStatus(agent: string, status: AgentStatus)
      modifies `agents
      ensures agents == old(agents)[agent := status]
    {
      agents := agents[agent := status];
    }

    method MarkMessagesRead(messages: set<Message>)
      modifies `unread
      ensures unread == old(unread) - messages
    {
      unread := unread - messages;
    }

    method CountRuns(p: Run -> bool) returns (n: nat)
      ensures n == Count(runs, p)
    {
      n := 0;
      for i := 0 to |runs|
        invariant n == Count(runs[..i], p)
      {
        assert runs[..i + 1][..i] == runs[..i];
        if p(runs[i]) {
          n := n + 1;
        }
      }
      assert runs[..|runs|] == runs;
    }
  }

  class Supervisor {
    const config: Config
    const store: TeamStore
    var started: bool
    var inFlight: set<Lane>
    var inFlightRuns: map<nat, Lane>
    // The suspended calls of the process: they live outside the supervisor's own fields.
    ghost var live: map<nat, Lane>
    ghost var settled: set<Lane>
    // Everything that ever happened to these rows, in this process and before.
    ghost var history: seq<Event>

    ghost function View(): State
      reads this, store
    {
      State(store.runs, store.tasks, store.roster, store.agents, store.unread,
            started, inFlight, inFlightRuns, live, settled)
    }

    ghost predicate Valid()
      reads this, store
    {
      View() == Play(config, INITIAL, history)
    }

    // A fresh process over the rows that an earlier history left. None of its suspended
    // calls survive.
    constructor (config: Config, store: TeamStore, ghost past: seq<Event>)
      requires HasRowsOf(store, Play(config, INITIAL, past))
      ensures Valid() && this.config == config && this.store == store
      ensures history == if past == [] then [] else past + [Crash]
    {
      this.config, this.store := config, store;
      started, inFlight, inFlightRuns, live, settled := false, {}, map[], map[], {};
      history := if past == [] then [] else past + [Crash];
      new;
      PlaySnoc(config, past, Crash);
    }

    // The invariants of the protocol hold of the object, and the bounds on runs with them.
    lemma Holds()
      requires Valid()
      ensures Inv(View()) && Capacity(config, View())
      ensures config.failedRunLimit >= 1 && (forall e :: e in history ==> Undisturbed(e)) ==> RetryInv(config, View())
    {
      CapacityAlways(config, history);
      if config.failedRunLimit >= 1 && forall e :: e in history ==> Undisturbed(e) {
        RetriesAlways(config, history);
      }
    }

    ghost method Record(e: Event)
      requires View() == Step(config, Play(config, INITIAL, history), e)
      modifies `history
      ensures Valid() && history == old(history) + [e]
    {
      PlaySnoc(config, history, e);
      history := history + [e];
    }

    // ---------- Edits of the rows by others ----------

    method AddAgent(name: string)
      requires Valid()
      modifies `history, store
      ensures Valid() && history == old(history) + [Event.AddAgent(name)]
    {
      store.AddAgent(name);
      Record(Event.AddAgent(name));
    }

    method AddTask(owner: Option<string>, blocked: bool)
      requires Valid()
      modifies `history, store
      ensures Valid() && history == old(history) + [Event.AddTask(owner, blocked)]
    {
      store.AddTask(owner, blocked);
      Record(Event.AddTask(owner, blocked));
    }

    method SendMessage(m: Message)
      requires Valid()
      modifies `history, store
      ensures Valid() && history == old(history) + [Send(m)]
    {
      store.SendMessage(m);
      Record(Send(m));
    }

    // ---------- Ticks ----------

    method CheckQuota(agent: string) returns (ok: bool)
      ensures ok <==> QuotaAllows(config, View(), agent)
    {
      if config.quota.None? {
        return true;
      }
      var active := store.CountRuns(AnyRunning());
      if active >= config.quota.value.maxActiveRuns {
        return false;
      }
      var own := store.CountRuns(RunningFor(agent));
      ok := own < config.quota.value.maxParallelRunsPerAgent;
    }

    method StartLane(lane: Lane, messages: set<Message>, v: Verdict)
      modifies `inFlight, `inFlightRuns, `live, `settled, store
      ensures View() == SupervisorProtocol.StartLane(config, old(View()), lane, messages, v)
    {
      inFlight := inFlight + {lane};
      if v == NoBot {
        settled := settled + {lane};
        return;
      }
      var allowed := CheckQuota(lane.agent);
      if !allowed {
        settled := settled + {lane};
        return;
      }
      if v == Reject && lane.task.Some? {
        var t := lane.task.value;
        if t < |store.tasks| && store.tasks[t].status in {Pending, InProgress} {
          store.UpdateTask(t, GivenUp);
        }
        store.MarkMessagesRead(messages);
        settled := settled + {lane};
        return;
      }
      var r := store.CreateRun(lane.agent, lane.task);
      inFlightRuns := inFlightRuns[r := lane];
      live := live[r := lane];
      store.SetAgentStatus(lane.agent, Working);
      if lane.task.Some? {
        store.UpdateTask(lane.task.value, InProgress);
      }
      store.MarkMessagesRead(messages);
    }

    method TryLane(lane: Lane, messages: set<Message>, v: Verdict)
      modifies `inFlight, `inFlightRuns, `live, `settled, store
      ensures View() == SupervisorProtocol.TryLane(config, old(View()), lane, messages, v)
    {
      if lane !in inFlight {
        StartLane(lane, messages, v);
      }
    }

    method ListReadyTasks(agent: string) returns (ids: seq<nat>)
      ensures ids == ReadyTasks(View(), agent, |store.tasks|)
    {
      ids := [];
      for t := 0 to |store.tasks|
        invariant ids == ReadyTasks(View(), agent, t)
      {
        if store.tasks[t] == Task(Some(agent), false, Pending) {
          ids := ids + [t];
        }
      }
    }

    method StartTasks(agent: string, ids: seq<nat>, inbox: set<Message>, verdicts: Lane -> Verdict, lanes: nat)
      requires lanes <= |ids|
      modifies `inFlight, `inFlightRuns, `live, `settled, store
      ensures View() == SupervisorProtocol.StartTasks(config, old(View()), agent, ids, inbox, verdicts, lanes)
    {
      ghost var before := View();
      for i := 0 to lanes
        invariant View() == SupervisorProtocol.StartTasks(config, before, agent, ids, inbox, verdicts, i)
      {
        var lane := Lane(agent, Some(ids[i]));
        TryLane(lane, Mentioning(inbox, ids[i]), verdicts(lane));
      }
    }

    method TickAgent(agent: string, verdicts: Lane -> Verdict)
      modifies `inFlight, `inFlightRuns, `live, `settled, store
      ensures View() == SupervisorProtocol.TickAgent(config, old(View()), agent, verdicts)
    {
      var running := store.CountRuns(RunningFor(agent));
      if running >= config.maxParallelPerAgent {
        return;
      }
      var capacity := config.maxParallelPerAgent - running;
      var ids := ListReadyTasks(agent);
      var inbox := set m | m in store.unread && m.to == agent;
      assert inbox == Inbox(View(), agent);
      if ids != [] {
        StartTasks(agent, ids, inbox, verdicts, Min(capacity, |ids|));
      } else if running == 0 && inbox != {} {
        TryLane(Lane(agent, None), inbox, verdicts(Lane(agent, None)));
      }
    }

    method ListActiveAgents() returns (names: seq<string>)
      ensures names == ActiveAgents(View(), |store.roster|)
    {
      names := [];
      for i := 0 to |store.roster|
        invariant names == ActiveAgents(View(), i)
      {
        var a := store.roster[i];
        if a in store.agents && store.agents[a] != Retired {
          names := names + [a];
        }
      }
    }

    method TickTeam(botFound: bool, verdicts: Lane -> Verdict)
      modifies `inFlight, `inFlightRuns, `live, `settled, store
      ensures View() == RunTick(config, old(View()), botFound, verdicts)
    {
      ghost var before := View();
      if !started || !botFound {
        return;
      }
      var agents := ListActiveAgents();
      for i := 0 to |agents|
        invariant View() == TickAgents(config, before, agents, verdicts, i)
      {
        TickAgent(agents[i], verdicts);
      }
    }

    method Tick(botFound: bool, verdicts: Lane -> Verdict)
      requires Valid()
      modifies this, store
      ensures Valid() && history == old(history) + [Event.Tick(botFound, verdicts)]
      ensures View() == RunTick(config, old(View()), botFound, verdicts)
    {
      TickTeam(botFound, verdicts);
      Record(Event.Tick(botFound, verdicts));
    }

    // ---------- After the await ----------

    method RequeueTask(task: Option<nat>)
      modifies store`tasks
      ensures View() == Requeue(old(View()), task)
    {
      if task.Some? && task.value < |store.tasks| && store.tasks[task.value].status == InProgress {
        store.UpdateTask(task.value, Pending);
      }
    }

    method SettleFailedTask(task: Option<nat>, f: Outcome)
      requires f.Failure?
      modifies store`tasks
      ensures View() == SupervisorProtocol.SettleFailedTask(config, old(View()), task, f)
    {
      if task.None? || task.value >= |store.tasks| || store.tasks[task.value].status != InProgress {
        return;
      }
      var t := task.value;
      var failures := store.CountRuns(FailedOn(t));
      var same := store.CountRuns(SameFailureOn(t, f.fingerprint));
      var terminal := !f.retryable || same >= config.sameFailureLimit || failures >= config.failedRunLimit;
      store.UpdateTask(t, if terminal then GivenUp else Pending);
    }

    method SetAgentIdleIfNoRunningRuns(agent: string)
      modifies store`agents
      ensures View() == SetIdle(old(View()), agent)
    {
      if agent !in store.agents || store.agents[agent] == Retired {
        return;
      }
      var running := store.CountRuns(RunningFor(agent));
      if running == 0 {
        store.SetAgentStatus(agent, Idle);
      }
    }

    method Conclude(r: nat, task: Option<nat>, outcome: Outcome)
      requires r < |store.runs|
      modifies store
      ensures View() == SupervisorProtocol.Conclude(config, old(View()), r, task, outcome)
    {
      if store.runs[r].status == Stopped {
        RequeueTask(task);
        return;
      }
      match outcome
      case Success =>
        store.UpdateRun(r, Completed, store.runs[r].error);
        if task.Some? && task.value < |store.tasks| && store.tasks[task.value].status == InProgress {
          store.UpdateTask(task.value, Done);
        }
      case Failure(_, _, stored) =>
        store.UpdateRun(r, Failed, stored);
        SettleFailedTask(task, outcome);
    }

    // The rest of `runAgent`, once the bridge has answered.
    method SettleRun(r: nat, lane: Lane, outcome: Outcome)
      requires Valid() && r in live && live[r] == lane
      modifies this, store
      ensures Valid() && history == old(history) + [Settle(r, outcome)]
      ensures r < |old(store.runs)| && View() == SupervisorProtocol.SettleRun(config, old(View()), r, outcome)
    {
      Holds();
      Conclude(r, lane.task, outcome);
      SetAgentIdleIfNoRunningRuns(lane.agent);
      inFlightRuns := Without(inFlightRuns, r);
      live := Without(live, r);
      settled := settled + {lane};
      Record(Settle(r, outcome));
    }

    method ReleaseLane(lane: Lane)
      requires Valid() && lane in settled
      modifies this
      ensures Valid() && history == old(history) + [Event.ReleaseLane(lane)]
      ensures inFlight == old(inFlight) - {lane} && settled == old(settled) - {lane}
    {
      inFlight := inFlight - {lane};
      settled := settled - {lane};
      Record(Event.ReleaseLane(lane));
    }

    // ---------- Stops and starts ----------

    // What the supervisor keeps of a run says the same as its row.
    ghost predicate InFlightAgree()
      reads this, store
    {
      forall r :: r in inFlightRuns && r < |store.runs| ==> inFlightRuns[r].task == store.runs[r].task
    }

    method StopRunRow(r: nat)
      requires r < |store.runs| && InFlightAgree()
      modifies store
      ensures View() == Stop(old(View()), r) && InFlightAgree()
    {
      store.UpdateRun(r, Stopped, store.runs[r].error);
      if r in inFlightRuns {
        RequeueTask(inFlightRuns[r].task);
      } else {
        RequeueTask(store.runs[r].task);
      }
    }

    method StopRun(r: nat) returns (found: bool)
      requires Valid()
      modifies `history, store
      ensures Valid() && history == old(history) + [Event.StopRun(r)]
      ensures found <==> r < |store.runs|
      ensures View() == if found then Stop(old(View()), r) else old(View())
    {
      Holds();
      found := r < |store.runs|;
      if found {
        StopRunRow(r);
      }
      Record(Event.StopRun(r));
    }

    // What `reapExpiredGovernedAgents` does with one recycled agent: the agent is stopped
    // and so is each of its running runs, newest first.
    method ReapAgent(agent: string)
      requires Valid()
      modifies `history, store
      ensures Valid() && history == old(history) + [Reap(agent)]
      ensures View() == SupervisorProtocol.ReapAgent(old(View()), agent)
    {
      Holds();
      if agent in store.agents {
        StopRunsOf(agent);
      }
      Record(Reap(agent));
    }

    method StopRunsOf(agent: string)
      requires agent in store.agents && InFlightAgree()
      modifies store
      ensures View() == SupervisorProtocol.ReapAgent(old(View()), agent)
    {
      store.SetAgentStatus(agent, Retired);
      ghost var before := View();
      var n := |store.runs|;
      for i := 0 to n
        invariant View() == SupervisorProtocol.StopRunsOf(before, agent, i) && InFlightAgree()
      {
        var r := n - i - 1;
        if store.runs[r].agent == agent && store.runs[r].status == Running {
          StopRunRow(r);
        }
      }
    }

    method RecoverRun(r: nat)
      requires r < |store.runs|
      modifies store
      ensures View() == SupervisorProtocol.RecoverRun(old(View()), r)
    {
      var run := store.runs[r];
      if run.status != Running {
        return;
      }
      store.UpdateRun(r, Failed, STALE);
      RequeueTask(run.task);
      if run.agent in store.agents && store.agents[run.agent] != Retired {
        store.SetAgentStatus(run.agent, Idle);
      }
    }

    method RecoverStaleRunningRuns()
      modifies store
      ensures View() == RecoverRuns(old(View()), |old(store.runs)|)
    {
      ghost var before := View();
      var n := |store.runs|;
      for i := 0 to n
        invariant View() == RecoverRuns(before, i)
      {
        RecoverRun(n - i - 1);
      }
    }

    method Start()
      requires Valid()
      modifies `started, `history, store
      ensures Valid() && history == old(history) + [Event.Start]
      ensures View() == StartUp(old(View()))
    {
      if !started {
        RecoverStaleRunningRuns();
        started := true;
      }
      Record(Event.Start);
    }

    method Destroy()
      requires Valid()
      modifies this
      ensures Valid() && history == old(history) + [Event.Destroy]
      ensures !started && inFlightRuns == map[] && live == old(live)
    {
      started := false;
      inFlightRuns := map[];
      Record(Event.Destroy);
    }
  }

  ghost predicate HasRowsOf(store: TeamStore, s: State)
    reads store
  {
    && store.runs == s.runs && store.tasks == s.tasks && store.roster == s.roster
    && store.agents == s.agents && store.unread == s.unread
  }

  lemma PlaySnoc(c: Config, events: seq<Event>, e: Event)
    ensures Play(c, INITIAL, events + [e]) == Step(c, Play(c, INITIAL, events), e)
  {
    assert (events + [e])[..|events|] == events;
  }
}
