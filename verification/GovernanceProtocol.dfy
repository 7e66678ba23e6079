/**
 Two databases: the governance rows of this extension and the upstream teams. Every
 operation is a list of single writes, and the process may die after any of them.
 `Reconciled` is what a startup reconciliation makes of whatever is left.

 A governed team name holds one digest of the template's name and one of the scope key, so
 `Governed(key)` stands for it. The id of an instance is the digest of one text for the
 whole key, which two keys can share: then only one of them can have a row.
 */
module GovernanceProtocol {
  import opened Common
  import opened CanonicalJson
  import opened GovernanceIds
  import opened VersionedRegistry

  // `shaped` says that a name the extension never gave out has the shape of one it gives.
  datatype TeamName = Governed(key: Key) | Other(name: string, shaped: bool)

  datatype AgentStatus = Idle | Working | Retired
  datatype TaskStatus = Pending | InProgress | Completed | Failed | Deleted
  datatype TaskRow = TaskRow(subject: string, status: TaskStatus)
  datatype Team = Team(active: bool, agents: map<string, AgentStatus>, tasks: map<nat, TaskRow>)

  datatype TemplateTask = TemplateTask(id: Option<nat>, subject: string, status: Option<TaskStatus>)
  datatype Body = Body(agents: seq<string>, tasks: seq<TemplateTask>)

  datatype Instance = Instance(version: nat, digest: string, active: bool)

  datatype State = State(templates: Table, instances: map<Key, Instance>, teams: map<TeamName, Team>)

  datatype Limits = Limits(maxTeamsPerScope: nat, maxAgents: nat)

  // What else a call of `resolveInstance` comes with: whether it may create, the actor's
  // authority, the merged limits unless one of them is invalid, and whether every rule set
  // it refers to can be pinned.
  datatype Request = Request(
    createIfMissing: bool, mayStart: bool, mayCreate: bool, limits: Option<Limits>, rulesPinned: bool)

  // `decode` reads the members out of a stored template body.
  datatype Codec = Codec(le: Collation, decode: Json -> Body)

  const FRESH := Team(true, map[], map[])

  predicate Shaped(n: TeamName) {
    n.Governed? || n.shaped
  }

  // ---------- Template members ----------

  ghost function MaxId(ids: set<nat>): (highest: nat)
    ensures forall i :: i in ids ==> i <= highest
    ensures if ids == {} then highest == 0 else highest in ids
  {
    if ids == {} then 0
    else
      var i :| i in ids;
      assert forall j :: j in ids ==> j == i || j in ids - {i};
      Max(i, MaxId(ids - {i}))
  }

  // `upsertTask`: with an id the row is written or updated, without one it is created.
  ghost function PutTask(tasks: map<nat, TaskRow>, t: TemplateTask): map<nat, TaskRow> {
    match t.id
    case Some(i) => tasks[i := TaskRow(t.subject, t.status.GetOr(if i in tasks then tasks[i].status else Pending))]
    case None => tasks[MaxId(tasks.Keys) + 1 := TaskRow(t.subject, Pending)]
  }

  function Listed(tasks: map<nat, TaskRow>): set<nat> {
    set i | i in tasks && tasks[i].status != Deleted
  }

  function AddAgents(agents: map<string, AgentStatus>, names: seq<string>, n: nat): map<string, AgentStatus>
    requires n <= |names|
  {
    if n == 0 then agents
    else
      var d := AddAgents(agents, names, n - 1);
      if names[n - 1] in d then d else d[names[n - 1] := Idle]
  }

  predicate Skipped(t: TemplateTask, listed: set<nat>) {
    t.id.Some? && t.id.value in listed
  }

  ghost function AddTasks(tasks: map<nat, TaskRow>, ts: seq<TemplateTask>, listed: set<nat>, n: nat): map<nat, TaskRow>
    requires n <= |ts|
  {
    if n == 0 then tasks
    else
      var d := AddTasks(tasks, ts, listed, n - 1);
      if Skipped(ts[n - 1], listed) then d else PutTask(d, ts[n - 1])
  }

  // The team after the first `n` agents, or the first `n` tasks, were looked at.
  function Staff(team: Team, names: seq<string>, n: nat): Team
    requires n <= |names|
  {
    team.(agents := AddAgents(team.agents, names, n))
  }

  ghost function Assign(team: Team, ts: seq<TemplateTask>, n: nat): Team
    requires n <= |ts|
  {
    team.(tasks := AddTasks(team.tasks, ts, Listed(team.tasks), n))
  }

  ghost function Repair(body: Body, team: Team): Team {
    Assign(Staff(team, body.agents, |body.agents|), body.tasks, |body.tasks|)
  }

  // ---------- Operations as writes ----------

  datatype Write =
    | Upstream(name: TeamName, team: Option<Team>)
    | InstanceRow(key: Key, instance: Option<Instance>)
    | Templates(table: Table)

  ghost function Apply(s: State, w: Write): State {
    match w
    case Upstream(n, Some(t)) => s.(teams := s.teams[n := t])
    case Upstream(n, None) => s.(teams := Without(s.teams, n))
    case InstanceRow(k, Some(i)) => s.(instances := s.instances[k := i])
    case InstanceRow(k, None) => s.(instances := Without(s.instances, k))
    case Templates(t) => s.(templates := t)
  }

  ghost function ApplyFirst(s: State, ws: seq<Write>, n: nat): State
    requires n <= |ws|
  {
    if n == 0 then s else Apply(ApplyFirst(s, ws, n - 1), ws[n - 1])
  }

  datatype Op =
    | PublishTemplate(name: string, body: Json)
    | Resolve(key: Key, version: Option<nat>, request: Request)
    | Stop(key: Key, permitted: bool)
    | Reactivate(key: Key, permitted: bool)
    | Delete(key: Key, permitted: bool)
    | UpstreamEdit(edited: TeamName, outside: Option<Team>)

  ghost function TemplateOf(c: Codec, s: State, k: Key): Body
    requires k in s.instances
  {
    match FindVersion(s.templates, k.template, s.instances[k].version)
    case Some(row) => c.decode(row.body)
    case None => Body([], [])
  }

  ghost function StaffWrites(name: TeamName, team: Team, names: seq<string>): seq<Write> {
    seq(|names|, i requires 0 <= i < |names| => Upstream(name, Some(Staff(team, names, i + 1))))
  }

  ghost function TaskWrites(name: TeamName, team: Team, ts: seq<TemplateTask>): seq<Write> {
    seq(|ts|, i requires 0 <= i < |ts| => Upstream(name, Some(Assign(team, ts, i + 1))))
  }

  ghost function MemberWrites(name: TeamName, body: Body, team: Team): seq<Write> {
    [Upstream(name, Some(team))]
    + StaffWrites(name, team, body.agents)
    + TaskWrites(name, Staff(team, body.agents, |body.agents|), body.tasks)
  }

  ghost function ReactivateWrites(c: Codec, s: State, k: Key): seq<Write>
    requires k in s.instances
  {
    var team := if Governed(k) in s.teams then s.teams[Governed(k)].(active := true) else FRESH;
    MemberWrites(Governed(k), TemplateOf(c, s, k), team) + [InstanceRow(k, Some(s.instances[k].(active := true)))]
  }

  function WantedTemplate(s: State, k: Key, version: Option<nat>): Option<VersionedRegistry.Row> {
    FindVersion(s.templates, k.template, version.GetOr(LatestVersion(s.templates, k.template)))
  }

  // The row of another instance has the id.
  ghost predicate IdTaken(instances: map<Key, Instance>, k: Key) {
    exists j :: j in instances && j != k && IdText(j) == IdText(k)
  }

  // The insertion fails on a taken id; the team is deleted again then.
  ghost function InstallWrites(s: State, k: Key, body: Body, instance: Instance): seq<Write> {
    (if Governed(k) in s.teams then [Upstream(Governed(k), None)] else [])
    + MemberWrites(Governed(k), body, FRESH)
    + [if IdTaken(s.instances, k) then Upstream(Governed(k), None) else InstanceRow(k, Some(instance))]
  }

  ghost function CreateWrites(c: Codec, s: State, k: Key, version: Option<nat>): seq<Write> {
    match WantedTemplate(s, k, version)
    case None => []
    case Some(row) => InstallWrites(s, k, c.decode(row.body), Instance(row.version, row.digest, true))
  }

  function ActiveInScope(instances: map<Key, Instance>, k: Key): set<Key> {
    set j | j in instances && j.scope == k.scope && j.scopeKey == k.scopeKey && instances[j].active
  }

  predicate RoomInScope(instances: map<Key, Instance>, k: Key, request: Request) {
    request.limits.Some? && |ActiveInScope(instances, k)| < request.limits.value.maxTeamsPerScope
  }

  // The checks before anything is written.
  predicate MayReactivate(s: State, k: Key, version: Option<nat>, request: Request)
    requires k in s.instances
  {
    request.createIfMissing && (version.Some? ==> version.value == s.instances[k].version) && request.mayStart
  }

  predicate MayCreate(c: Codec, s: State, k: Key, version: Option<nat>, request: Request) {
    && request.createIfMissing && request.mayCreate && WantedTemplate(s, k, version).Some?
    && RoomInScope(s.instances, k, request) && request.rulesPinned
    && |c.decode(WantedTemplate(s, k, version).value.body).agents| <= request.limits.value.maxAgents
  }

  ghost function Writes(c: Codec, s: State, op: Op): seq<Write> {
    match op
    case PublishTemplate(name, body) => [Templates(Publish(s.templates, name, body, c.le).0)]
    case Resolve(k, version, request) =>
      if k in s.instances then
        if s.instances[k].active || !MayReactivate(s, k, version, request) then [] else ReactivateWrites(c, s, k)
      else if MayCreate(c, s, k, version, request) then CreateWrites(c, s, k, version)
      else []
    case Stop(k, permitted) =>
      if k !in s.instances || !permitted then []
      else
        (if Governed(k) in s.teams
         then [Upstream(Governed(k), Some(s.teams[Governed(k)].(active := false)))] else [])
        + [InstanceRow(k, Some(s.instances[k].(active := false)))]
    case Reactivate(k, permitted) =>
      if k !in s.instances || !permitted then [] else ReactivateWrites(c, s, k)
    case Delete(k, permitted) =>
      if k !in s.instances || !permitted then [] else [InstanceRow(k, None), Upstream(Governed(k), None)]
    case UpstreamEdit(n, t) => [Upstream(n, t)]
  }

  // An operation of which only the first `writes` writes happen before the process dies.
  datatype Attempt = Attempt(op: Op, writes: nat)

  ghost function Try(c: Codec, s: State, a: Attempt): State {
    var ws := Writes(c, s, a.op);
    ApplyFirst(s, ws, if a.writes < |ws| then a.writes else |ws|)
  }

  ghost function Complete(c: Codec, s: State, op: Op): State {
    ApplyFirst(s, Writes(c, s, op), |Writes(c, s, op)|)
  }

  ghost function TryAll(c: Codec, s: State, attempts: seq<Attempt>): State {
    if attempts == [] then s
    else Try(c, TryAll(c, s, attempts[..|attempts| - 1]), attempts[|attempts| - 1])
  }

  // ---------- Reconciliation ----------

  ghost predicate Known(s: State, n: TeamName) {
    n.Governed? && n.key in s.instances
  }

  ghost function ReconciledTeam(c: Codec, s: State, n: TeamName): Option<Team> {
    if Known(s, n) then
      if s.instances[n.key].active then
        Some(Repair(TemplateOf(c, s, n.key), if n in s.teams then s.teams[n].(active := true) else FRESH))
      else if n in s.teams then Some(s.teams[n].(active := false))
      else None
    else if n in s.teams then Some(if Shaped(n) then s.teams[n].(active := false) else s.teams[n])
    else None
  }

  ghost predicate IsReconciled(c: Codec, s: State, r: State) {
    && r.templates == s.templates && r.instances == s.instances
    && forall n :: Lookup(r.teams, n) == ReconciledTeam(c, s, n)
  }

  datatype Report = Report(
    recreated: set<TeamName>, reactivated: set<TeamName>, stopped: set<TeamName>, orphans: set<TeamName>)

  // What is repaired for the rows of `ks`.
  function Repairs(s: State, ks: set<Key>): Report {
    Report(
      set k | k in ks && k in s.instances && s.instances[k].active && Governed(k) !in s.teams :: Governed(k),
      set k | k in ks && k in s.instances && s.instances[k].active
              && Governed(k) in s.teams && !s.teams[Governed(k)].active :: Governed(k),
      set k | k in ks && k in s.instances && !s.instances[k].active
              && Governed(k) in s.teams && s.teams[Governed(k)].active :: Governed(k),
      {})
  }

  function ReportOf(s: State): Report {
    Repairs(s, s.instances.Keys).(
      orphans := set n | n in s.teams && Shaped(n) && !(n.Governed? && n.key in s.instances) && s.teams[n].active)
  }

  // ---------- What must hold ----------

  // The two databases agree.
  ghost predicate Agreement(s: State) {
    && (forall k :: k in s.instances ==>
          if s.instances[k].active then Governed(k) in s.teams && s.teams[Governed(k)].active
          else Governed(k) in s.teams ==> !s.teams[Governed(k)].active)
    && (forall n :: n in s.teams && Shaped(n) && !Known(s, n) ==> !s.teams[n].active)
  }

  // The id is the primary key of the instance rows.
  ghost predicate UniqueIds(instances: map<Key, Instance>) {
    forall j, k :: j in instances && k in instances && IdText(j) == IdText(k) ==> j == k
  }

  // Every instance has an id of its own and pins a template that is there.
  ghost predicate Pinned(c: Codec, templates: Table, instances: map<Key, Instance>) {
    && UniqueIds(instances)
    && Numbered(templates) && Digested(templates, c.le)
    && forall k :: k in instances ==>
         Resolvable(templates, k.template, instances[k].version, instances[k].digest)
  }

  ghost predicate Registered(c: Codec, s: State) {
    Pinned(c, s.templates, s.instances)
  }
}
