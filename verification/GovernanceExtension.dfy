/**
 The extension itself. Its methods perform the writes of `GovernanceProtocol` one by one
 and in that order: `log` is every write since the process came up.
 */
module GovernanceExtension {
  import opened Common
  import opened CanonicalJson
  import opened GovernanceIds
  import opened VersionedRegistry
  import opened GovernanceProtocol
  import opened GovernanceReconcile

  datatype Outcome =
    | Answer(instance: Instance)
    | Absent
    | Denied
    | PinnedVersionConflict
    | TemplateNotFound
    | InvalidLimits
    | ScopeQuotaExceeded
    | RuleSetRefused
    | AgentQuotaExceeded
    | IdInUse
    | InstanceNotFound

  // Why resolving is refused, for every answer that is a refusal.
  ghost predicate Refuses(c: Codec, s: State, k: Key, version: Option<nat>, request: Request, out: Outcome) {
    match out
    case Answer(_) => false
    case Absent => !request.createIfMissing
    case PinnedVersionConflict => k in s.instances && version.Some? && version.value != s.instances[k].version
    case Denied => if k in s.instances then !request.mayStart else !request.mayCreate
    case TemplateNotFound => WantedTemplate(s, k, version).None?
    case InvalidLimits => request.limits.None?
    case ScopeQuotaExceeded =>
      request.limits.Some? && |ActiveInScope(s.instances, k)| >= request.limits.value.maxTeamsPerScope
    case RuleSetRefused => !request.rulesPinned
    case AgentQuotaExceeded =>
      && request.limits.Some? && WantedTemplate(s, k, version).Some?
      && |c.decode(WantedTemplate(s, k, version).value.body).agents| > request.limits.value.maxAgents
    case IdInUse => IdTaken(s.instances, k)
    case InstanceNotFound => false
  }

  class Extension {
    const codec: Codec
    var templates: Table
    var instances: map<Key, Instance>
    var teams: map<TeamName, Team>
    ghost var log: seq<Write>

    ghost function View(): State
      reads this
    {
      State(templates, instances, teams)
    }

    ghost predicate Valid()
      reads `templates, `instances
    {
      Pinned(codec, templates, instances)
    }

    // The process comes up on whatever the two databases hold.
    constructor (codec: Codec, s: State)
      requires Registered(codec, s)
      ensures Valid() && View() == s && this.codec == codec && log == []
    {
      this.codec := codec;
      templates := s.templates;
      instances := s.instances;
      teams := s.teams;
      log := [];
    }

    // ---------- Single writes ----------

    method WriteTeam(n: TeamName, team: Option<Team>)
      modifies `teams, `log
      ensures log == old(log) + [Upstream(n, team)]
      ensures View() == Apply(old(View()), Upstream(n, team))
    {
      teams := if team.Some? then teams[n := team.value] else Without(teams, n);
      log := log + [Upstream(n, team)];
    }

    method WriteRow(k: Key, row: Option<Instance>)
      modifies `instances, `log
      ensures log == old(log) + [InstanceRow(k, row)]
      ensures View() == Apply(old(View()), InstanceRow(k, row))
    {
      instances := if row.Some? then instances[k := row.value] else Without(instances, k);
      log := log + [InstanceRow(k, row)];
    }

    // `SELECT MAX(id)`, or 0 without rows.
    method HighestId(tasks: map<nat, TaskRow>) returns (highest: nat)
      ensures highest == MaxId(tasks.Keys)
    {
      highest := 0;
      var todo := tasks.Keys;
      while todo != {}
        invariant todo <= tasks.Keys
        invariant forall i :: i in tasks ==> i in todo || i <= highest
        invariant highest == 0 || highest in tasks
        decreases |todo|
      {
        var i :| i in todo;
        todo := todo - {i};
        highest := Max(highest, i);
      }
      assert highest <= MaxId(tasks.Keys);
    }

    method UpsertTask(tasks: map<nat, TaskRow>, t: TemplateTask) returns (after: map<nat, TaskRow>)
      ensures after == PutTask(tasks, t)
    {
      if t.id.Some? {
        var status := if t.id.value in tasks then tasks[t.id.value].status else Pending;
        after := tasks[t.id.value := TaskRow(t.subject, t.status.GetOr(status))];
      } else {
        var highest := HighestId(tasks);
        after := tasks[highest + 1 := TaskRow(t.subject, Pending)];
      }
    }

    // ---------- Members of a template ----------

    method RepairAgents(n: TeamName, names: seq<string>)
      requires n in teams
      modifies `teams, `log
      ensures teams == old(teams)[n := Staff(old(teams)[n], names, |names|)]
      ensures log == old(log) + StaffWrites(n, old(teams)[n], names)
    {
      ghost var team := teams[n];
      ghost var writes := StaffWrites(n, team, names);
      for i := 0 to |names|
        invariant n in teams && teams == old(teams)[n := Staff(team, names, i)]
        invariant log == old(log) + writes[..i]
      {
        var agents := teams[n].agents;
        if names[i] !in agents {
          agents := agents[names[i] := Idle];
        }
        WriteTeam(n, Some(teams[n].(agents := agents)));
        assert writes[..i + 1] == writes[..i] + [writes[i]];
      }
      assert writes[..|writes|] == writes;
    }

    method RepairTasks(n: TeamName, ts: seq<TemplateTask>)
      requires n in teams
      modifies `teams, `log
      ensures teams == old(teams)[n := Assign(old(teams)[n], ts, |ts|)]
      ensures log == old(log) + TaskWrites(n, old(teams)[n], ts)
    {
      ghost var team := teams[n];
      ghost var writes := TaskWrites(n, team, ts);
      var listed := Listed(teams[n].tasks);
      for i := 0 to |ts|
        invariant n in teams && teams == old(teams)[n := Assign(team, ts, i)]
        invariant log == old(log) + writes[..i]
      {
        var tasks := teams[n].tasks;
        if !Skipped(ts[i], listed) {
          tasks := UpsertTask(tasks, ts[i]);
        }
        WriteTeam(n, Some(teams[n].(tasks := tasks)));
        assert writes[..i + 1] == writes[..i] + [writes[i]];
      }
      assert writes[..|writes|] == writes;
    }

    method RepairTemplateMembers(n: TeamName, body: Body)
      requires n in teams
      modifies `teams, `log
      ensures teams == old(teams)[n := Repair(body, old(teams)[n])]
      ensures old(log) <= log
      ensures [Upstream(n, Some(old(teams)[n]))] + log[|old(log)|..] == MemberWrites(n, body, old(teams)[n])
    {
      RepairAgents(n, body.agents);
      RepairTasks(n, body.tasks);
    }

    method CreateUpstreamFromTemplate(n: TeamName, body: Body)
      modifies `teams, `log
      ensures teams == old(teams)[n := Repair(body, FRESH)]
      ensures log == old(log) + (if n in old(teams) then [Upstream(n, None)] else []) + MemberWrites(n, body, FRESH)
    {
      if n in teams {
        WriteTeam(n, None);
      }
      WriteTeam(n, Some(FRESH));
      RepairTemplateMembers(n, body);
    }

    method RequirePinnedTemplate(k: Key) returns (body: Body)
      requires Valid() && k in instances
      ensures body == TemplateOf(codec, View(), k)
    {
      var row := FindVersion(templates, k.template, instances[k].version);
      body := codec.decode(row.value.body);
    }

    // ---------- Operations ----------

    method BringUp(n: TeamName, body: Body)
      modifies `teams, `log
      ensures var team := if n in old(teams) then old(teams)[n].(active := true) else FRESH;
              && teams == old(teams)[n := Repair(body, team)]
              && log == old(log) + MemberWrites(n, body, team)
    {
      if n !in teams {
        CreateUpstreamFromTemplate(n, body);
      } else {
        WriteTeam(n, Some(teams[n].(active := true)));
        RepairTemplateMembers(n, body);
      }
    }

    method ReactivateInstance(k: Key, permitted: bool) returns (out: Outcome)
      requires Valid()
      modifies `teams, `instances, `log
      ensures Valid() && log == old(log) + Writes(codec, old(View()), Reactivate(k, permitted))
      ensures View() == Complete(codec, old(View()), Reactivate(k, permitted))
      ensures out.Answer? ==> k in instances && out.instance == instances[k] && instances[k].active
                              && Governed(k) in teams && teams[Governed(k)].active
      ensures !out.Answer? ==> View() == old(View()) && !(k in instances && permitted)
      ensures !out.Answer? ==> out == if k in instances then Denied else InstanceNotFound
    {
      if k !in instances {
        return InstanceNotFound;
      }
      if !permitted {
        return Denied;
      }
      var body := RequirePinnedTemplate(k);
      ReactivationMakes(codec, View(), k);
      BringUp(Governed(k), body);
      RowKeepsPins(codec, templates, instances, k, instances[k].(active := true));
      WriteRow(k, Some(instances[k].(active := true)));
      out := Answer(instances[k]);
    }

    // `INSERT` fails when another row has the id; the others of its keys are free.
    method InsertRow(k: Key, row: Instance) returns (ok: bool)
      requires Valid() && k !in instances && Resolvable(templates, k.template, row.version, row.digest)
      modifies `instances, `log
      ensures Valid() && (ok <==> !IdTaken(old(instances), k))
      ensures log == old(log) + if ok then [InstanceRow(k, Some(row))] else []
      ensures View() == if ok then Apply(old(View()), InstanceRow(k, Some(row))) else old(View())
    {
      ok := true;
      var todo := instances.Keys;
      while todo != {}
        invariant todo <= instances.Keys
        invariant ok <==> forall j :: j in instances && j !in todo ==> IdText(j) != IdText(k)
        decreases |todo|
      {
        var j :| j in todo;
        todo := todo - {j};
        ok := ok && IdText(j) != IdText(k);
      }
      if ok {
        NewRowKeepsPins(codec, templates, instances, k, row);
        WriteRow(k, Some(row));
      }
    }

    method Install(k: Key, body: Body, instance: Instance) returns (ok: bool)
      requires Valid() && k !in instances && Resolvable(templates, k.template, instance.version, instance.digest)
      modifies `teams, `instances, `log
      ensures Valid() && (ok <==> !IdTaken(old(instances), k))
      ensures instances == if ok then old(instances)[k := instance] else old(instances)
      ensures teams == if ok then old(teams)[Governed(k) := Repair(body, FRESH)] else Without(old(teams), Governed(k))
      ensures log == old(log) + InstallWrites(old(View()), k, body, instance)
    {
      var name := Governed(k);
      CreateUpstreamFromTemplate(name, body);
      ok := InsertRow(k, instance);
      if !ok {
        TakenBack(teams, name, old(teams), Repair(body, FRESH));
        WriteTeam(name, None);
      }
      SameWrites(old(log), if name in old(teams) then [Upstream(name, None)] else [],
                 MemberWrites(name, body, FRESH), log[|log| - 1]);
    }

    method CreateInstance(k: Key, version: Option<nat>, request: Request) returns (out: Outcome)
      requires Valid() && k !in instances && request.createIfMissing
      modifies `teams, `instances, `log
      ensures Valid() && log == old(log) + Writes(codec, old(View()), Resolve(k, version, request))
      ensures View() == Complete(codec, old(View()), Resolve(k, version, request))
      ensures if out.Answer? then k in instances && out.instance == instances[k] && instances[k].active
              else Refuses(codec, old(View()), k, version, request, out) && instances == old(instances)
    {
      if !request.mayCreate {
        return Denied;
      }
      var wanted := FindVersion(templates, k.template, version.GetOr(LatestVersion(templates, k.template)));
      if wanted.None? {
        return TemplateNotFound;
      }
      var row := wanted.value;
      if request.limits.None? {
        return InvalidLimits;
      }
      if |ActiveInScope(instances, k)| >= request.limits.value.maxTeamsPerScope {
        return ScopeQuotaExceeded;
      }
      if !request.rulesPinned {
        return RuleSetRefused;
      }
      var body := codec.decode(row.body);
      if |body.agents| > request.limits.value.maxAgents {
        return AgentQuotaExceeded;
      }
      CreationMakes(codec, View(), k, version);
      FoundIsResolvable(templates, k.template, version.GetOr(LatestVersion(templates, k.template)));
      var ok := Install(k, body, Instance(row.version, row.digest, true));
      out := if ok then Answer(instances[k]) else IdInUse;
    }

    method ResolveInstance(k: Key, version: Option<nat>, request: Request) returns (out: Outcome)
      requires Valid()
      modifies this
      ensures Valid() && log == old(log) + Writes(codec, old(View()), Resolve(k, version, request))
      ensures View() == Complete(codec, old(View()), Resolve(k, version, request))
      ensures out.Answer? <==> k in instances && instances[k].active
      ensures if out.Answer? then out.instance == instances[k]
              else Refuses(codec, old(View()), k, version, request, out) && instances == old(instances)
    {
      if k in instances && instances[k].active {
        return Answer(instances[k]);
      }
      if !request.createIfMissing {
        return Absent;
      }
      if k in instances {
        if version.Some? && version.value != instances[k].version {
          return PinnedVersionConflict;
        }
        ResolvingReactivates(codec, View(), k, version, request);
        out := ReactivateInstance(k, request.mayStart);
        return;
      }
      out := CreateInstance(k, version, request);
    }

    method StopInstance(k: Key, permitted: bool) returns (out: Outcome)
      requires Valid()
      modifies this
      ensures Valid() && log == old(log) + Writes(codec, old(View()), Stop(k, permitted))
      ensures View() == Complete(codec, old(View()), Stop(k, permitted))
      ensures out.Answer? ==> k in instances && out.instance == instances[k] && !instances[k].active
                              && (Governed(k) in teams ==> !teams[Governed(k)].active)
      ensures !out.Answer? ==> View() == old(View()) && !(k in instances && permitted)
    {
      if k !in instances {
        return InstanceNotFound;
      }
      if !permitted {
        return Denied;
      }
      if Governed(k) in teams {
        WriteTeam(Governed(k), Some(teams[Governed(k)].(active := false)));
      }
      RowKeepsPins(codec, templates, instances, k, instances[k].(active := false));
      WriteRow(k, Some(instances[k].(active := false)));
      ApplyTwo(old(View()), Writes(codec, old(View()), Stop(k, permitted)));
      out := Answer(instances[k]);
    }

    method DeleteInstance(k: Key, permitted: bool) returns (deleted: bool)
      requires Valid()
      modifies this
      ensures Valid() && log == old(log) + Writes(codec, old(View()), Delete(k, permitted))
      ensures View() == Complete(codec, old(View()), Delete(k, permitted))
      ensures deleted <==> k in old(instances) && permitted
      ensures deleted ==> k !in instances && Governed(k) !in teams
    {
      if k !in instances || !permitted {
        return false;
      }
      WriteRow(k, None);
      WriteTeam(Governed(k), None);
      ApplyTwo(old(View()), Writes(codec, old(View()), Delete(k, permitted)));
      deleted := true;
    }

    method ReconcileInstance(k: Key) returns (repaired: Report)
      requires Valid() && k in instances
      modifies `teams, `log
      ensures forall n :: n != Governed(k) ==> Lookup(teams, n) == Lookup(old(teams), n)
      ensures Lookup(teams, Governed(k)) == ReconciledTeam(codec, old(View()), Governed(k))
      ensures repaired == Repairs(old(View()), {k})
    {
      var n := Governed(k);
      repaired := Report({}, {}, {}, {});
      var body := RequirePinnedTemplate(k);
      if instances[k].active {
        if n !in teams {
          CreateUpstreamFromTemplate(n, body);
          repaired := repaired.(recreated := {n});
        } else {
          if !teams[n].active {
            WriteTeam(n, Some(teams[n].(active := true)));
            repaired := repaired.(reactivated := {n});
          }
          RepairTemplateMembers(n, body);
        }
      } else if n in teams && teams[n].active {
        WriteTeam(n, Some(teams[n].(active := false)));
        repaired := repaired.(stopped := {n});
      }
    }

    method ReconcileInstances() returns (report: Report)
      requires Valid()
      modifies `teams, `log
      ensures forall n :: Lookup(teams, n) == if Known(old(View()), n) then ReconciledTeam(codec, old(View()), n)
                                              else Lookup(old(teams), n)
      ensures report == Repairs(old(View()), instances.Keys)
    {
      ghost var was := View();
      report := Report({}, {}, {}, {});
      var todo := instances.Keys;
      while todo != {}
        invariant todo <= instances.Keys && Progress(codec, was, todo, teams)
        invariant report == Repairs(was, was.instances.Keys - todo)
        decreases |todo|
      {
        var k :| k in todo;
        ghost var before := View();
        var repaired := ReconcileInstance(k);
        OneMoreReconciled(codec, was, todo, before, View(), k);
        report := Report(report.recreated + repaired.recreated, report.reactivated + repaired.reactivated,
                         report.stopped + repaired.stopped, {});
        todo := todo - {k};
      }
      assert was.instances.Keys - todo == was.instances.Keys;
    }

    method StopIfOrphan(n: TeamName) returns (stopped: bool)
      requires n in teams
      modifies `teams, `log
      ensures stopped <==> Shaped(n) && !Known(View(), n) && old(teams)[n].active
      ensures teams == if stopped then old(teams)[n := old(teams)[n].(active := false)] else old(teams)
      ensures teams.Keys == old(teams).Keys
    {
      stopped := Shaped(n) && !(n.Governed? && n.key in instances) && teams[n].active;
      if stopped {
        WriteTeam(n, Some(teams[n].(active := false)));
      }
    }

    method StopOrphans() returns (orphans: set<TeamName>)
      modifies `teams, `log
      ensures OrphanProgress(codec, old(View()), {}, teams)
      ensures orphans == ReportOf(old(View())).orphans
    {
      ghost var was := View();
      orphans := {};
      var names := teams.Keys;
      while names != {}
        invariant names <= was.teams.Keys && teams.Keys == was.teams.Keys
        invariant OrphanProgress(codec, was, names, teams)
        invariant orphans == Settled(was, names)
        decreases |names|
      {
        var n :| n in names;
        ghost var before := teams;
        var stopped := StopIfOrphan(n);
        orphans := orphans + if stopped then {n} else {};
        OneMoreOrphan(codec, was, names, before, teams, n, stopped);
        names := names - {n};
      }
    }

    method Reconcile() returns (report: Report)
      requires Valid()
      modifies `teams, `log
      ensures Valid()
      ensures IsReconciled(codec, old(View()), View())
      ensures report == ReportOf(old(View()))
    {
      report := ReconcileInstances();
      SameOrphans(old(View()), View());
      var orphans := StopOrphans();
      report := report.(orphans := orphans);
    }
  }

  // The rows outside `todo` were reconciled, nothing else was touched.
  ghost predicate Progress(c: Codec, was: State, todo: set<Key>, teams: map<TeamName, Team>) {
    forall n :: Lookup(teams, n) == if Known(was, n) && n.key !in todo then ReconciledTeam(c, was, n)
                                    else Lookup(was.teams, n)
  }

  lemma OneMoreReconciled(c: Codec, was: State, todo: set<Key>, before: State, after: State, k: Key)
    requires k in todo && todo <= was.instances.Keys && Progress(c, was, todo, before.teams)
    requires before.templates == was.templates && before.instances == was.instances
    requires forall n :: n != Governed(k) ==> Lookup(after.teams, n) == Lookup(before.teams, n)
    requires Lookup(after.teams, Governed(k)) == ReconciledTeam(c, before, Governed(k))
    ensures Progress(c, was, todo - {k}, after.teams)
    ensures var (a, b) := (Repairs(was, was.instances.Keys - todo), Repairs(before, {k}));
            Repairs(was, was.instances.Keys - (todo - {k}))
            == Report(a.recreated + b.recreated, a.reactivated + b.reactivated, a.stopped + b.stopped, {})
  {
    assert Lookup(before.teams, Governed(k)) == Lookup(was.teams, Governed(k));
    SameTeamSameResult(c, was, before, k);
    RepairsGrow(was, was.instances.Keys - todo, k);
    assert was.instances.Keys - (todo - {k}) == was.instances.Keys - todo + {k};
  }

  lemma ResolvingReactivates(c: Codec, s: State, k: Key, version: Option<nat>, request: Request)
    requires k in s.instances && !s.instances[k].active && request.createIfMissing
    requires version.Some? ==> version.value == s.instances[k].version
    ensures Writes(c, s, Resolve(k, version, request)) == Writes(c, s, Reactivate(k, request.mayStart))
  {
  }

  lemma SameWrites(log: seq<Write>, pre: seq<Write>, members: seq<Write>, last: Write)
    ensures log + pre + members + [last] == log + (pre + members + [last])
  {
  }

  lemma TakenBack(teams: map<TeamName, Team>, n: TeamName, was: map<TeamName, Team>, made: Team)
    requires teams == was[n := made]
    ensures Without(teams, n) == Without(was, n)
  {
  }

  lemma RowKeepsPins(c: Codec, t: Table, instances: map<Key, Instance>, k: Key, row: Instance)
    requires Pinned(c, t, instances) && k in instances && Resolvable(t, k.template, row.version, row.digest)
    ensures Pinned(c, t, instances[k := row])
  {
  }

  lemma NewRowKeepsPins(c: Codec, t: Table, instances: map<Key, Instance>, k: Key, row: Instance)
    requires Pinned(c, t, instances) && !IdTaken(instances, k) && Resolvable(t, k.template, row.version, row.digest)
    ensures Pinned(c, t, instances[k := row])
  {
    FreeIdKeepsIdsUnique(instances, k, row);
  }

  ghost predicate OrphanProgress(c: Codec, was: State, names: set<TeamName>, teams: map<TeamName, Team>) {
    forall n :: Lookup(teams, n) == if Known(was, n) || n in names then Lookup(was.teams, n)
                                    else ReconciledTeam(c, was, n)
  }

  function Settled(was: State, names: set<TeamName>): set<TeamName> {
    set m | m in ReportOf(was).orphans && m !in names
  }

  lemma OneMoreOrphan(c: Codec, was: State, names: set<TeamName>,
                      before: map<TeamName, Team>, after: map<TeamName, Team>, n: TeamName, stopped: bool)
    requires n in names && OrphanProgress(c, was, names, before) && n in was.teams && n in before
    requires stopped <==> Shaped(n) && !Known(was, n) && before[n].active
    requires after == if stopped then before[n := before[n].(active := false)] else before
    ensures OrphanProgress(c, was, names - {n}, after)
    ensures Settled(was, names - {n}) == Settled(was, names) + if stopped then {n} else {}
  {
    assert Lookup(before, n) == Lookup(was.teams, n);
  }

  lemma SameOrphans(was: State, now: State)
    requires now.instances == was.instances
    requires forall n :: !Known(was, n) ==> Lookup(now.teams, n) == Lookup(was.teams, n)
    ensures ReportOf(now).orphans == ReportOf(was).orphans
  {
    forall n ensures n in ReportOf(now).orphans <==> n in ReportOf(was).orphans {
      assert !Known(was, n) ==> Lookup(now.teams, n) == Lookup(was.teams, n);
    }
  }

  lemma SameTeamSameResult(c: Codec, was: State, now: State, k: Key)
    requires now.templates == was.templates && now.instances == was.instances && k in was.instances
    requires Lookup(now.teams, Governed(k)) == Lookup(was.teams, Governed(k))
    ensures ReconciledTeam(c, now, Governed(k)) == ReconciledTeam(c, was, Governed(k))
    ensures Repairs(now, {k}) == Repairs(was, {k})
  {
  }

  lemma RepairsGrow(s: State, ks: set<Key>, k: Key)
    ensures var (a, b, all) := (Repairs(s, ks), Repairs(s, {k}), Repairs(s, ks + {k}));
            && all.recreated == a.recreated + b.recreated
            && all.reactivated == a.reactivated + b.reactivated
            && all.stopped == a.stopped + b.stopped
  {
  }

  lemma ApplyTwo(s: State, ws: seq<Write>)
    requires 1 <= |ws| <= 2
    ensures ApplyFirst(s, ws, |ws|) == if |ws| == 1 then Apply(s, ws[0]) else Apply(Apply(s, ws[0]), ws[1])
  {
    assert ApplyFirst(s, ws, 1) == Apply(ApplyFirst(s, ws, 0), ws[0]);
  }
}
