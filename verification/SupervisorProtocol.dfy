/**
 The Agent Team supervisor of one team, over the rows of the team store.

 A synchronous block of the supervisor is one event: a whole tick, the continuation of
 one run after its await, the release of a lane key, a stop, a crash, a start. Runs of the
 supervisor are arbitrary sequences of these events.
 */
module SupervisorProtocol {
  import opened Common

  datatype RunStatus = Running | Completed | Failed | Stopped
  datatype TaskStatus = Pending | InProgress | Done | GivenUp | Deleted
  datatype AgentStatus = Idle | Working | Retired

  // `error` is the fingerprint computed again from the message stored with the run.
  datatype Run = Run(agent: string, task: Option<nat>, status: RunStatus, error: string)
  datatype Task = Task(owner: Option<string>, blocked: bool, status: TaskStatus)
  datatype Message = Message(id: nat, to: string, mentions: set<nat>)

  // The key of one run slot of an agent: one per task, and one for its inbox.
  datatype Lane = Lane(agent: string, task: Option<nat>)

  // What the environment answers when a lane is about to start.
  datatype Verdict = Accept | NoBot | Reject

  datatype Outcome =
    | Success
    | Failure(retryable: bool, fingerprint: string, stored: string)

  datatype Quota = Quota(maxActiveRuns: nat, maxParallelRunsPerAgent: nat)

  datatype Config = Config(
    maxParallelPerAgent: nat,
    sameFailureLimit: nat,
    failedRunLimit: nat,
    quota: Option<Quota>)

  const STALE := "Bridge restarted before this Agent Team run completed"

  datatype State = State(
    // rows of the store
    runs: seq<Run>,
    tasks: seq<Task>,
    roster: seq<string>,
    agents: map<string, AgentStatus>,
    unread: set<Message>,
    // fields of the supervisor
    started: bool,
    inFlight: set<Lane>,
    inFlightRuns: map<nat, Lane>,
    // its suspended calls: awaiting the bridge, or over but with the key still held
    live: map<nat, Lane>,
    settled: set<Lane>)

  const INITIAL := State([], [], [], map[], {}, false, {}, map[], map[], {})

  datatype Event =
    | AddAgent(name: string)
    | AddTask(owner: Option<string>, blocked: bool)
    | Send(message: Message)
    | Start
    | Tick(botFound: bool, verdicts: Lane -> Verdict)
    | Settle(run: nat, outcome: Outcome)
    | ReleaseLane(lane: Lane)
    | StopRun(run: nat)
    | Reap(agent: string)
    | Destroy
    | Crash

  // ---------- Counting runs ----------

  function Count(runs: seq<Run>, p: Run -> bool): nat {
    if runs == [] then 0
    else Count(runs[..|runs| - 1], p) + if p(runs[|runs| - 1]) then 1 else 0
  }

  function RunningFor(agent: string): Run -> bool {
    (r: Run) => r.agent == agent && r.status == Running
  }

  function AnyRunning(): Run -> bool {
    (r: Run) => r.status == Running
  }

  function OfTask(t: nat): Run -> bool {
    (r: Run) => r.task == Some(t)
  }

  function RunningOn(t: nat): Run -> bool {
    (r: Run) => r.task == Some(t) && r.status == Running
  }

  function FailedOn(t: nat): Run -> bool {
    (r: Run) => r.task == Some(t) && r.status == Failed
  }

  function SameFailureOn(t: nat, fingerprint: string): Run -> bool {
    (r: Run) => r.task == Some(t) && r.status == Failed && r.error == fingerprint
  }

  lemma CountAppend(runs: seq<Run>, r: Run, p: Run -> bool)
    ensures Count(runs + [r], p) == Count(runs, p) + if p(r) then 1 else 0
  {
  }

  lemma {:induction false} CountUpdate(runs: seq<Run>, i: nat, r: Run, p: Run -> bool)
    requires i < |runs|
    ensures Count(runs[i := r], p)
            == Count(runs, p) - (if p(runs[i]) then 1 else 0) + if p(r) then 1 else 0
    ensures p(runs[i]) ==> Count(runs, p) >= 1
  {
    var last := |runs| - 1;
    if i == last {
      assert runs[i := r][..last] == runs[..last];
    } else {
      assert runs[i := r][..last] == runs[..last][i := r];
      CountUpdate(runs[..last], i, r, p);
    }
  }

  lemma {:induction false} CountZero(runs: seq<Run>, p: Run -> bool)
    ensures Count(runs, p) == 0 <==> forall i :: 0 <= i < |runs| ==> !p(runs[i])
  {
    if runs != [] {
      CountZero(runs[..|runs| - 1], p);
      assert runs == runs[..|runs| - 1] + [runs[|runs| - 1]];
    }
  }

  // ---------- Rows ----------

  function SetRun(s: State, r: nat, status: RunStatus, error: string): State
    requires r < |s.runs|
  {
    s.(runs := s.runs[r := s.runs[r].(status := status, error := error)])
  }

  function SetTask(s: State, t: nat, status: TaskStatus): State {
    if t < |s.tasks| then s.(tasks := s.tasks[t := s.tasks[t].(status := status)]) else s
  }

  predicate TaskIs(s: State, t: nat, status: TaskStatus) {
    t < |s.tasks| && s.tasks[t].status == status
  }

  // Puts a task back if it is in progress.
  function Requeue(s: State, task: Option<nat>): State {
    if task.Some? && TaskIs(s, task.value, InProgress) then SetTask(s, task.value, Pending) else s
  }

  function SetIdle(s: State, agent: string): State {
    if agent in s.agents && s.agents[agent] != Retired && Count(s.runs, RunningFor(agent)) == 0
    then s.(agents := s.agents[agent := Idle])
    else s
  }

  // ---------- A tick ----------

  predicate QuotaAllows(c: Config, s: State, agent: string) {
    c.quota.Some? ==>
      && Count(s.runs, AnyRunning()) < c.quota.value.maxActiveRuns
      && Count(s.runs, RunningFor(agent)) < c.quota.value.maxParallelRunsPerAgent
  }

  function Settled(s: State, lane: Lane): State {
    s.(inFlight := s.inFlight + {lane}, settled := s.settled + {lane})
  }

  // The part of `runAgent` before its first await.
  function StartLane(c: Config, s: State, lane: Lane, messages: set<Message>, v: Verdict): State {
    if v == NoBot || !QuotaAllows(c, s, lane.agent) then Settled(s, lane)
    else if v == Reject && lane.task.Some? then
      var t := lane.task.value;
      var f := if TaskIs(s, t, Pending) || TaskIs(s, t, InProgress) then SetTask(s, t, GivenUp) else s;
      Settled(f.(unread := f.unread - messages), lane)
    else
      var r := |s.runs|;
      var d := s.(runs := s.runs + [Run(lane.agent, lane.task, Running, "")],
                  inFlight := s.inFlight + {lane},
                  inFlightRuns := s.inFlightRuns[r := lane],
                  live := s.live[r := lane],
                  agents := s.agents[lane.agent := Working],
                  unread := s.unread - messages);
      if lane.task.Some? then SetTask(d, lane.task.value, InProgress) else d
  }

  predicate Ready(s: State, agent: string, t: nat) {
    t < |s.tasks| && s.tasks[t] == Task(Some(agent), false, Pending)
  }

  // The ready tasks of an agent with an id below `n`, in id order.
  function ReadyTasks(s: State, agent: string, n: nat): (ids: seq<nat>)
    requires n <= |s.tasks|
    ensures |ids| <= n
    ensures forall t: nat :: t in ids <==> t < n && Ready(s, agent, t)
    ensures forall i, j :: 0 <= i < j < |ids| ==> ids[i] < ids[j]
  {
    if n == 0 then []
    else
      var rest := ReadyTasks(s, agent, n - 1);
      assert forall i :: 0 <= i < |rest| ==> rest[i] in rest;
      if Ready(s, agent, n - 1) then rest + [n - 1] else rest
  }

  function Inbox(s: State, agent: string): set<Message> {
    set m | m in s.unread && m.to == agent
  }

  function Mentioning(messages: set<Message>, t: nat): set<Message> {
    set m | m in messages && t in m.mentions
  }

  function TryLane(c: Config, s: State, lane: Lane, messages: set<Message>, v: Verdict): State {
    if lane in s.inFlight then s else StartLane(c, s, lane, messages, v)
  }

  // Starts the first `n` of the given tasks, in order.
  function StartTasks(c: Config, s: State, agent: string, ids: seq<nat>, inbox: set<Message>,
                      verdicts: Lane -> Verdict, n: nat): State
    requires n <= |ids|
  {
    if n == 0 then s
    else
      var lane := Lane(agent, Some(ids[n - 1]));
      TryLane(c, StartTasks(c, s, agent, ids, inbox, verdicts, n - 1), lane,
              Mentioning(inbox, ids[n - 1]), verdicts(lane))
  }

  function TickAgent(c: Config, s: State, agent: string, verdicts: Lane -> Verdict): State {
    var running := Count(s.runs, RunningFor(agent));
    var ids := ReadyTasks(s, agent, |s.tasks|);
    var inbox := Inbox(s, agent);
    if running >= c.maxParallelPerAgent then s
    else if ids == [] then
      if running == 0 && inbox != {}
      then TryLane(c, s, Lane(agent, None), inbox, verdicts(Lane(agent, None)))
      else s
    else
      StartTasks(c, s, agent, ids, inbox, verdicts, Min(c.maxParallelPerAgent - running, |ids|))
  }

  function TickAgents(c: Config, s: State, agents: seq<string>, verdicts: Lane -> Verdict, n: nat): State
    requires n <= |agents|
  {
    if n == 0 then s
    else TickAgent(c, TickAgents(c, s, agents, verdicts, n - 1), agents[n - 1], verdicts)
  }

  // The agents of the team that are not stopped, in roster order.
  function ActiveAgents(s: State, n: nat): (names: seq<string>)
    requires n <= |s.roster|
    ensures |names| <= n
    ensures forall a :: a in names ==> a in s.agents && s.agents[a] != Retired
  {
    if n == 0 then []
    else
      var a := s.roster[n - 1];
      if a in s.agents && s.agents[a] != Retired then ActiveAgents(s, n - 1) + [a]
      else ActiveAgents(s, n - 1)
  }

  function RunTick(c: Config, s: State, botFound: bool, verdicts: Lane -> Verdict): State {
    if !s.started || !botFound then s
    else
      var agents := ActiveAgents(s, |s.roster|);
      TickAgents(c, s, agents, verdicts, |agents|)
  }

  // ---------- After the await ----------

  predicate Terminal(c: Config, s: State, t: nat, f: Outcome)
    requires f.Failure?
  {
    || !f.retryable
    || Count(s.runs, SameFailureOn(t, f.fingerprint)) >= c.sameFailureLimit
    || Count(s.runs, FailedOn(t)) >= c.failedRunLimit
  }

  // `settleFailedTasks`, once the run itself is marked failed.
  function SettleFailedTask(c: Config, s: State, task: Option<nat>, f: Outcome): State
    requires f.Failure?
  {
    if task.Some? && TaskIs(s, task.value, InProgress)
    then SetTask(s, task.value, if Terminal(c, s, task.value, f) then GivenUp else Pending)
    else s
  }

  function Conclude(c: Config, s: State, r: nat, task: Option<nat>, o: Outcome): State
    requires r < |s.runs|
  {
    if s.runs[r].status == Stopped then Requeue(s, task)
    else
      match o
      case Success =>
        var d := SetRun(s, r, Completed, s.runs[r].error);
        if task.Some? && TaskIs(d, task.value, InProgress) then SetTask(d, task.value, Done) else d
      case Failure(_, _, stored) =>
        SettleFailedTask(c, SetRun(s, r, Failed, stored), task, o)
  }

  function SettleRun(c: Config, s: State, r: nat, o: Outcome): State
    requires r in s.live && r < |s.runs|
  {
    var lane := s.live[r];
    var d := SetIdle(Conclude(c, s, r, lane.task, o), lane.agent);
    d.(inFlightRuns := Without(d.inFlightRuns, r), live := Without(d.live, r),
       settled := d.settled + {lane})
  }

  // ---------- Stops, crashes, starts ----------

  function Stop(s: State, r: nat): State
    requires r < |s.runs|
  {
    Requeue(SetRun(s, r, Stopped, s.runs[r].error), s.runs[r].task)
  }

  // Stops the running runs of a reaped agent among the `n` newest runs, newest first.
  function StopRunsOf(s: State, agent: string, n: nat): State
    requires n <= |s.runs|
    ensures |StopRunsOf(s, agent, n).runs| == |s.runs|
  {
    if n == 0 then s
    else
      var d := StopRunsOf(s, agent, n - 1);
      var r := |s.runs| - n;
      if d.runs[r].agent == agent && d.runs[r].status == Running then Stop(d, r) else d
  }

  function ReapAgent(s: State, agent: string): State {
    if agent !in s.agents then s
    else StopRunsOf(s.(agents := s.agents[agent := Retired]), agent, |s.runs|)
  }

  // One run of `recoverStaleRunningRuns`.
  function RecoverRun(s: State, r: nat): State
    requires r < |s.runs|
  {
    if s.runs[r].status != Running then s
    else
      var run := s.runs[r];
      var d := Requeue(SetRun(s, r, Failed, STALE), run.task);
      if run.agent in d.agents && d.agents[run.agent] != Retired
      then d.(agents := d.agents[run.agent := Idle])
      else d
  }

  // The `n` newest runs, newest first.
  function RecoverRuns(s: State, n: nat): State
    requires n <= |s.runs|
    ensures |RecoverRuns(s, n).runs| == |s.runs|
  {
    if n == 0 then s else RecoverRun(RecoverRuns(s, n - 1), |s.runs| - n)
  }

  function StartUp(s: State): State {
    if s.started then s else RecoverRuns(s, |s.runs|).(started := true)
  }

  function Step(c: Config, s: State, e: Event): State {
    match e
    case AddAgent(a) =>
      if a in s.agents then s else s.(roster := s.roster + [a], agents := s.agents[a := Idle])
    case AddTask(owner, blocked) => s.(tasks := s.tasks + [Task(owner, blocked, Pending)])
    case Send(m) => s.(unread := s.unread + {m})
    case Start => StartUp(s)
    case Tick(botFound, verdicts) => RunTick(c, s, botFound, verdicts)
    case Settle(r, o) => if r in s.live && r < |s.runs| then SettleRun(c, s, r, o) else s
    case ReleaseLane(l) =>
      if l in s.settled then s.(settled := s.settled - {l}, inFlight := s.inFlight - {l}) else s
    case StopRun(r) => if r < |s.runs| then Stop(s, r) else s
    case Reap(a) => ReapAgent(s, a)
    case Destroy => s.(started := false, inFlightRuns := map[])
    case Crash => s.(started := false, inFlight := {}, inFlightRuns := map[], live := map[], settled := {})
  }

  function Play(c: Config, s: State, events: seq<Event>): State {
    if events == [] then s
    else Step(c, Play(c, s, events[..|events| - 1]), events[|events| - 1])
  }
}
