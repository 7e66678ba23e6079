/**
 What holds of the two databases after any number of operations that were cut short, and
 what a reconciliation makes of it.
 */
module GovernanceReconcile {
  import opened Common
  import opened CanonicalJson
  import opened GovernanceIds
  import opened VersionedRegistry
  import opened GovernanceProtocol

  // ---------- Pinned templates survive every run ----------

  // A write that leaves the registry alone and makes no row but one that pins what is in
  // the registry and whose id is free.
  ghost predicate Sound(s: State, w: Write) {
    match w
    case Upstream(_, _) => true
    case InstanceRow(k, Some(i)) =>
      Resolvable(s.templates, k.template, i.version, i.digest) && !IdTaken(s.instances, k)
    case InstanceRow(_, None) => true
    case Templates(_) => false
  }

  // Sound writes, of which at most one is to a row.
  ghost predicate AllSound(s: State, ws: seq<Write>) {
    && (forall i :: 0 <= i < |ws| ==> Sound(s, ws[i]))
    && (forall i, j :: 0 <= i < j < |ws| ==> !(ws[i].InstanceRow? && ws[j].InstanceRow?))
  }

  lemma {:induction false} SoundWritesKeep(c: Codec, s: State, ws: seq<Write>, n: nat)
    requires Registered(c, s) && AllSound(s, ws) && n <= |ws|
    ensures Registered(c, ApplyFirst(s, ws, n)) && ApplyFirst(s, ws, n).templates == s.templates
    ensures (forall i :: 0 <= i < n ==> !ws[i].InstanceRow?) ==> ApplyFirst(s, ws, n).instances == s.instances
  {
    if n > 0 {
      SoundWritesKeep(c, s, ws, n - 1);
      assert Sound(s, ws[n - 1]);
      if ws[n - 1].InstanceRow? && ws[n - 1].instance.Some? {
        FreeIdKeepsIdsUnique(s.instances, ws[n - 1].key, ws[n - 1].instance.value);
      }
    }
  }

  lemma FreeIdKeepsIdsUnique(instances: map<Key, Instance>, k: Key, row: Instance)
    requires UniqueIds(instances)
    ensures UniqueIds(instances[k := row]) <==> !IdTaken(instances, k)
  {
    var after := instances[k := row];
    if j :| j in instances && j != k && IdText(j) == IdText(k) {
      assert j in after && k in after;
    }
  }

  lemma FoundIsResolvable(t: Table, name: string, version: nat)
    requires FindVersion(t, name, version).Some?
    ensures var row := FindVersion(t, name, version).value;
            row in t && Resolvable(t, name, row.version, row.digest)
  {
    FindVersionFinds(t, name, version);
  }

  lemma CreationIsSound(c: Codec, s: State, k: Key, version: Option<nat>)
    requires Registered(c, s)
    ensures AllSound(s, CreateWrites(c, s, k, version))
  {
    if WantedTemplate(s, k, version).Some? {
      FoundIsResolvable(s.templates, k.template, version.GetOr(LatestVersion(s.templates, k.template)));
    }
  }

  lemma ReactivationIsSound(c: Codec, s: State, k: Key)
    requires Registered(c, s) && k in s.instances
    ensures AllSound(s, ReactivateWrites(c, s, k))
  {
  }

  lemma OperationsAreSound(c: Codec, s: State, op: Op)
    requires Registered(c, s) && !op.PublishTemplate?
    ensures AllSound(s, Writes(c, s, op))
  {
    if op.Resolve? && op.key !in s.instances {
      CreationIsSound(c, s, op.key, op.version);
    } else if (op.Resolve? || op.Reactivate?) && op.key in s.instances {
      ReactivationIsSound(c, s, op.key);
    }
  }

  lemma PublishKeepsPins(c: Codec, s: State, name: string, body: Json)
    requires Registered(c, s)
    ensures Registered(c, Complete(c, s, PublishTemplate(name, body)))
  {
    var after := Complete(c, s, PublishTemplate(name, body));
    var ws := Writes(c, s, PublishTemplate(name, body));
    assert ApplyFirst(s, ws, 1) == Apply(ApplyFirst(s, ws, 0), ws[0]);
    assert after == s.(templates := Publish(s.templates, name, body, c.le).0);
    PublishKeeps(s.templates, name, body, c.le);
    forall k | k in s.instances
      ensures Resolvable(after.templates, k.template, s.instances[k].version, s.instances[k].digest)
    {
      FoundIsResolvable(s.templates, k.template, s.instances[k].version);
      FindVersionFinds(s.templates, k.template, s.instances[k].version);
      var row := FindVersion(s.templates, k.template, s.instances[k].version).value;
      var ps := [Publication(name, body)];
      assert ps[..0] == [];
      assert PublishAll(s.templates, ps, c.le) == after.templates;
      PinnedForEver(s.templates, row, ps, c.le);
    }
  }

  lemma TryKeepsRegistered(c: Codec, s: State, a: Attempt)
    requires Registered(c, s)
    ensures Registered(c, Try(c, s, a))
  {
    var ws := Writes(c, s, a.op);
    if a.op.PublishTemplate? {
      PublishKeepsPins(c, s, a.op.name, a.op.body);
    } else {
      OperationsAreSound(c, s, a.op);
      SoundWritesKeep(c, s, ws, if a.writes < |ws| then a.writes else |ws|);
    }
  }

  lemma {:induction false} EveryRunKeepsRegistered(c: Codec, s: State, attempts: seq<Attempt>)
    requires Registered(c, s)
    ensures Registered(c, TryAll(c, s, attempts))
  {
    if attempts != [] {
      EveryRunKeepsRegistered(c, s, attempts[..|attempts| - 1]);
      TryKeepsRegistered(c, TryAll(c, s, attempts[..|attempts| - 1]), attempts[|attempts| - 1]);
    }
  }

  // ---------- Reconciliation restores agreement ----------

  // However many operations were cut short, and wherever: once reconciled, the two
  // databases agree, no pin is lost, no instance row changed, and the teams that are none
  // of the extension's business were left alone.
  lemma ReconcileRestoresAgreement(c: Codec, start: State, attempts: seq<Attempt>, r: State)
    requires Registered(c, start)
    requires IsReconciled(c, TryAll(c, start, attempts), r)
    ensures Agreement(r) && Registered(c, r)
    ensures r.instances == TryAll(c, start, attempts).instances
    ensures forall n :: !Shaped(n) ==> Lookup(r.teams, n) == Lookup(TryAll(c, start, attempts).teams, n)
  {
    var s := TryAll(c, start, attempts);
    EveryRunKeepsRegistered(c, start, attempts);
    forall k | k in r.instances
      ensures if r.instances[k].active then Governed(k) in r.teams && r.teams[Governed(k)].active
              else Governed(k) in r.teams ==> !r.teams[Governed(k)].active
    {
      assert Lookup(r.teams, Governed(k)) == ReconciledTeam(c, s, Governed(k));
    }
    forall n | n in r.teams && Shaped(n) && !Known(r, n)
      ensures !r.teams[n].active
    {
      assert Lookup(r.teams, n) == ReconciledTeam(c, s, n);
    }
  }

  // The governed teams that run are exactly those of the active rows.
  ghost predicate RunsExactlyTheActive(r: State) {
    forall n :: n in r.teams && Shaped(n) && r.teams[n].active
                <==> n.Governed? && n.key in r.instances && r.instances[n.key].active
  }

  lemma AgreementMeans(s: State)
    ensures Agreement(s) <==> RunsExactlyTheActive(s)
  {
  }

  lemma SecondReportIsEmpty(c: Codec, s: State, r: State)
    requires IsReconciled(c, s, r)
    ensures ReportOf(r) == Report({}, {}, {}, {})
  {
    forall k | k in r.instances
      ensures if r.instances[k].active then Governed(k) in r.teams && r.teams[Governed(k)].active
              else Governed(k) in r.teams ==> !r.teams[Governed(k)].active
    {
      assert Lookup(r.teams, Governed(k)) == ReconciledTeam(c, s, Governed(k));
    }
    forall n | n in r.teams && Shaped(n) && !Known(r, n)
      ensures !r.teams[n].active
    {
      assert Lookup(r.teams, n) == ReconciledTeam(c, s, n);
    }
  }

  // ---------- Repairing twice ----------

  predicate IdLess(ts: seq<TemplateTask>) {
    exists j :: 0 <= j < |ts| && ts[j].id == None
  }

  // What the template says of task `i`: the last subject, and the last status it gives.
  function Said(ts: seq<TemplateTask>, i: nat, n: nat): Option<(string, Option<TaskStatus>)>
    requires n <= |ts|
  {
    if n == 0 then None
    else if ts[n - 1].id != Some(i) then Said(ts, i, n - 1)
    else
      match Said(ts, i, n - 1)
      case None => Some((ts[n - 1].subject, ts[n - 1].status))
      case Some(earlier) =>
        Some((ts[n - 1].subject, if ts[n - 1].status.Some? then ts[n - 1].status else earlier.1))
  }

  // The row of task `i` after the first `n` template tasks.
  ghost predicate RowIs(before: Option<TaskRow>, said: Option<(string, Option<TaskStatus>)>, after: Option<TaskRow>) {
    match said
    case None => if before.Some? then after == before else after.Some? ==> after.value.status == Pending
    case Some(v) =>
      && after.Some? && after.value.subject == v.0
      && after.value.status == v.1.GetOr(if before.Some? then before.value.status else Pending)
  }

  lemma {:induction false} RowAfterRepair(tasks: map<nat, TaskRow>, ts: seq<TemplateTask>, listed: set<nat>, i: nat, n: nat)
    requires n <= |ts| && listed <= tasks.Keys
    ensures var d := AddTasks(tasks, ts, listed, n);
            && tasks.Keys <= d.Keys
            && (if i in listed then d[i] == tasks[i] else RowIs(Lookup(tasks, i), Said(ts, i, n), Lookup(d, i)))
  {
    if n > 0 {
      RowAfterRepair(tasks, ts, listed, i, n - 1);
    }
  }

  lemma {:induction false} RepairAddsEveryId(tasks: map<nat, TaskRow>, ts: seq<TemplateTask>, listed: set<nat>, n: nat)
    requires n <= |ts| && listed <= tasks.Keys
    ensures var d := AddTasks(tasks, ts, listed, n);
            && tasks.Keys <= d.Keys
            && forall j :: 0 <= j < n && ts[j].id.Some? ==> ts[j].id.value in d
  {
    if n > 0 {
      RepairAddsEveryId(tasks, ts, listed, n - 1);
    }
  }

  lemma {:induction false} IdLessTaskAddsRow(tasks: map<nat, TaskRow>, ts: seq<TemplateTask>, listed: set<nat>,
                                             j: nat, n: nat)
    requires j < n <= |ts| && listed <= tasks.Keys && ts[j].id == None
    ensures exists i: nat :: i in AddTasks(tasks, ts, listed, n) && i !in tasks
  {
    if n == j + 1 {
      var e := AddTasks(tasks, ts, listed, n - 1);
      RepairAddsEveryId(tasks, ts, listed, n - 1);
      assert MaxId(e.Keys) + 1 !in e;
      assert MaxId(e.Keys) + 1 in AddTasks(tasks, ts, listed, n);
    } else {
      IdLessTaskAddsRow(tasks, ts, listed, j, n - 1);
      var i: nat :| i in AddTasks(tasks, ts, listed, n - 1) && i !in tasks;
      assert i in AddTasks(tasks, ts, listed, n);
    }
  }

  lemma {:induction false} RepairAddsOnlyIds(tasks: map<nat, TaskRow>, ts: seq<TemplateTask>, listed: set<nat>, n: nat)
    requires n <= |ts| && !IdLess(ts)
    requires forall j :: 0 <= j < |ts| ==> ts[j].id.value in tasks
    ensures AddTasks(tasks, ts, listed, n).Keys == tasks.Keys
  {
    if n > 0 {
      RepairAddsOnlyIds(tasks, ts, listed, n - 1);
    }
  }

  lemma {:induction false} AgentsAfterRepair(agents: map<string, AgentStatus>, names: seq<string>, n: nat)
    requires n <= |names|
    ensures var d := AddAgents(agents, names, n);
            && (forall j :: 0 <= j < n ==> names[j] in d)
            && (forall a :: a in agents ==> a in d && d[a] == agents[a])
    ensures (forall j :: 0 <= j < n ==> names[j] in agents) ==> AddAgents(agents, names, n) == agents
  {
    if n > 0 {
      AgentsAfterRepair(agents, names, n - 1);
    }
  }

  // A second repair changes no agent and no task that is there. It adds nothing either
  // exactly when every task of the template carries an id.
  lemma RepairTwice(body: Body, team: Team)
    ensures var once := Repair(body, team);
            var twice := Repair(body, once);
            && twice.active == once.active && twice.agents == once.agents
            && (forall i :: i in once.tasks ==> i in twice.tasks && twice.tasks[i] == once.tasks[i])
            && (twice == once <==> !IdLess(body.tasks))
  {
    var once := Repair(body, team);
    var twice := Repair(body, once);
    var ts := body.tasks;
    AgentsAfterRepair(team.agents, body.agents, |body.agents|);
    AgentsAfterRepair(once.agents, body.agents, |body.agents|);
    forall i | i in once.tasks
      ensures i in twice.tasks && twice.tasks[i] == once.tasks[i]
    {
      RowAfterRepair(team.tasks, ts, Listed(team.tasks), i, |ts|);
      RowAfterRepair(once.tasks, ts, Listed(once.tasks), i, |ts|);
    }
    RepairAddsEveryId(team.tasks, ts, Listed(team.tasks), |ts|);
    if IdLess(ts) {
      var j :| 0 <= j < |ts| && ts[j].id == None;
      IdLessTaskAddsRow(once.tasks, ts, Listed(once.tasks), j, |ts|);
    } else {
      RepairAddsOnlyIds(once.tasks, ts, Listed(once.tasks), |ts|);
    }
  }

  ghost predicate Repeats(c: Codec, s: State, n: TeamName) {
    Known(s, n) && s.instances[n.key].active && IdLess(TemplateOf(c, s, n.key).tasks)
  }

  lemma TeamReconciledTwice(c: Codec, s: State, r: State, rr: State, n: TeamName)
    requires IsReconciled(c, s, r) && IsReconciled(c, r, rr)
    ensures n in r.teams <==> n in rr.teams
    ensures n in r.teams ==>
              && rr.teams[n].active == r.teams[n].active && rr.teams[n].agents == r.teams[n].agents
              && forall i :: i in r.teams[n].tasks ==>
                   i in rr.teams[n].tasks && rr.teams[n].tasks[i] == r.teams[n].tasks[i]
    ensures Lookup(r.teams, n) == Lookup(rr.teams, n) <==> !Repeats(c, s, n)
  {
    assert Lookup(r.teams, n) == ReconciledTeam(c, s, n);
    assert Lookup(rr.teams, n) == ReconciledTeam(c, r, n);
    if Known(s, n) && s.instances[n.key].active {
      RepairTwice(TemplateOf(c, s, n.key), if n in s.teams then s.teams[n].(active := true) else FRESH);
    }
  }

  // Reconciling again right away: every team keeps its activity, agents and tasks, and the
  // whole state stays put exactly when no active instance's template has a task without id.
  lemma ReconcileTwice(c: Codec, s: State, r: State, rr: State)
    requires IsReconciled(c, s, r) && IsReconciled(c, r, rr)
    ensures rr.teams.Keys == r.teams.Keys
    ensures forall n :: n in r.teams ==>
              && rr.teams[n].active == r.teams[n].active && rr.teams[n].agents == r.teams[n].agents
              && forall i :: i in r.teams[n].tasks ==>
                   i in rr.teams[n].tasks && rr.teams[n].tasks[i] == r.teams[n].tasks[i]
    ensures rr == r <==> forall k :: k in s.instances && s.instances[k].active ==> !IdLess(TemplateOf(c, s, k).tasks)
  {
    forall n
      ensures n in r.teams <==> n in rr.teams
      ensures n in r.teams ==>
                && rr.teams[n].active == r.teams[n].active && rr.teams[n].agents == r.teams[n].agents
                && forall i :: i in r.teams[n].tasks ==>
                     i in rr.teams[n].tasks && rr.teams[n].tasks[i] == r.teams[n].tasks[i]
    {
      TeamReconciledTwice(c, s, r, rr, n);
    }
    StaysPut(c, s, r, rr);
  }

  lemma StaysPut(c: Codec, s: State, r: State, rr: State)
    requires IsReconciled(c, s, r) && IsReconciled(c, r, rr)
    ensures rr == r <==> forall k :: k in s.instances && s.instances[k].active ==> !IdLess(TemplateOf(c, s, k).tasks)
  {
    if k :| k in s.instances && s.instances[k].active && IdLess(TemplateOf(c, s, k).tasks) {
      TeamReconciledTwice(c, s, r, rr, Governed(k));
    } else {
      forall n ensures Lookup(r.teams, n) == Lookup(rr.teams, n) {
        TeamReconciledTwice(c, s, r, rr, n);
      }
      SameLookups(r.teams, rr.teams);
    }
  }

  // ---------- Crashes between the two databases ----------

  lemma {:induction false} UpstreamWritesKeepRows(s: State, ws: seq<Write>, from: nat, n: nat)
    requires from <= n <= |ws| && forall i :: from <= i < n ==> ws[i].Upstream?
    ensures ApplyFirst(s, ws, n).instances == ApplyFirst(s, ws, from).instances
    ensures ApplyFirst(s, ws, n).templates == ApplyFirst(s, ws, from).templates
  {
    if n > from {
      UpstreamWritesKeepRows(s, ws, from, n - 1);
    }
  }

  // The row changes in one write, the last of all operations but `Delete`, whose first it is.
  lemma RowsChangeAtOnce(c: Codec, s: State, op: Op, writes: nat)
    ensures Try(c, s, Attempt(op, writes)).instances == s.instances
            || Try(c, s, Attempt(op, writes)).instances == Complete(c, s, op).instances
  {
    var ws := Writes(c, s, op);
    var n := if writes < |ws| then writes else |ws|;
    if op.Delete? {
      if n > 0 {
        UpstreamWritesKeepRows(s, ws, 1, n);
        UpstreamWritesKeepRows(s, ws, 1, |ws|);
      }
    } else if op.PublishTemplate? || n < |ws| {
      UpstreamWritesKeepRows(s, ws, 0, if op.PublishTemplate? then 0 else n);
    }
  }

  // A crash is atomic: once reconciled, either nothing or everything of the operation
  // happened, both to the rows and to which governed teams run.
  lemma CrashIsAtomic(c: Codec, s: State, op: Op, writes: nat, before: State, crashed: State, after: State)
    requires Registered(c, s)
    requires IsReconciled(c, s, before)
    requires IsReconciled(c, Try(c, s, Attempt(op, writes)), crashed)
    requires IsReconciled(c, Complete(c, s, op), after)
    ensures SameRunning(crashed, before) || SameRunning(crashed, after)
  {
    var all := [Attempt(op, writes)];
    var full := [Attempt(op, |Writes(c, s, op)|)];
    assert all[..0] == [] && full[..0] == [];
    ReconcileRestoresAgreement(c, s, [], before);
    ReconcileRestoresAgreement(c, s, all, crashed);
    ReconcileRestoresAgreement(c, s, full, after);
    AgreementMeans(before);
    AgreementMeans(crashed);
    AgreementMeans(after);
    RowsChangeAtOnce(c, s, op, writes);
  }

  ghost predicate SameRunning(a: State, b: State) {
    && a.instances == b.instances
    && forall n :: Shaped(n) ==> (n in a.teams && a.teams[n].active <==> n in b.teams && b.teams[n].active)
  }

  // ---------- Retrying ----------

  // Of several writes of one team, the last counts.
  lemma {:induction false} LastWriteWins(s: State, ws: seq<Write>, from: nat, n: nat, name: TeamName)
    requires from < n <= |ws|
    requires forall i :: from <= i < n ==> ws[i].Upstream? && ws[i].name == name && ws[i].team.Some?
    ensures var start := ApplyFirst(s, ws, from);
            ApplyFirst(s, ws, n) == start.(teams := start.teams[name := ws[n - 1].team.value])
  {
    assert ApplyFirst(s, ws, n) == Apply(ApplyFirst(s, ws, n - 1), ws[n - 1]);
    if from < n - 1 {
      LastWriteWins(s, ws, from, n - 1, name);
    }
  }

  lemma MembersEndInRepair(name: TeamName, body: Body, team: Team)
    ensures var ws := MemberWrites(name, body, team);
            && |ws| > 0 && ws[|ws| - 1] == Upstream(name, Some(Repair(body, team)))
            && forall i :: 0 <= i < |ws| ==> ws[i].Upstream? && ws[i].name == name && ws[i].team.Some?
  {
  }

  lemma MembersThenLast(s: State, ws: seq<Write>, pre: seq<Write>, members: seq<Write>, name: TeamName, made: Team,
                        last: Write)
    requires ws == pre + members + [last]
    requires members != [] && members[|members| - 1] == Upstream(name, Some(made))
    requires forall i :: 0 <= i < |members| ==> members[i].Upstream? && members[i].name == name && members[i].team.Some?
    ensures var start := ApplyFirst(s, ws, |pre|);
            ApplyFirst(s, ws, |ws|) == Apply(start.(teams := start.teams[name := made]), last)
  {
    var n := |pre| + |members|;
    forall i | |pre| <= i < n ensures ws[i] == members[i - |pre|] {}
    LastWriteWins(s, ws, |pre|, n, name);
    assert ws[n] == last;
    assert ApplyFirst(s, ws, n + 1) == Apply(ApplyFirst(s, ws, n), ws[n]);
  }

  // All writes of a creation but the last.
  lemma InstallMakes(s: State, k: Key, body: Body, instance: Instance)
    ensures var ws := InstallWrites(s, k, body, instance);
            ApplyFirst(s, ws, |ws|) == Apply(s.(teams := s.teams[Governed(k) := Repair(body, FRESH)]), ws[|ws| - 1])
  {
    var name := Governed(k);
    var made := Repair(body, FRESH);
    var pre := if name in s.teams then [Upstream(name, None)] else [];
    var ws := InstallWrites(s, k, body, instance);
    MembersEndInRepair(name, body, FRESH);
    MembersThenLast(s, ws, pre, MemberWrites(name, body, FRESH), name, made, ws[|ws| - 1]);
    var start := ApplyFirst(s, ws, |pre|);
    assert ApplyFirst(s, ws, 0) == s;
    if name in s.teams {
      assert start == Apply(s, ws[0]);
      assert Without(s.teams, name)[name := made] == s.teams[name := made];
    }
    assert start.(teams := start.teams[name := made]) == s.(teams := s.teams[name := made]);
  }

  // A creation makes the row and the team, or, on a taken id, no row and no team.
  lemma CreationMakes(c: Codec, s: State, k: Key, version: Option<nat>)
    requires WantedTemplate(s, k, version).Some?
    ensures var row := WantedTemplate(s, k, version).value;
            ApplyFirst(s, CreateWrites(c, s, k, version), |CreateWrites(c, s, k, version)|)
            == if IdTaken(s.instances, k) then s.(teams := Without(s.teams, Governed(k)))
               else s.(instances := s.instances[k := Instance(row.version, row.digest, true)],
                       teams := s.teams[Governed(k) := Repair(c.decode(row.body), FRESH)])
  {
    var row := WantedTemplate(s, k, version).value;
    InstallMakes(s, k, c.decode(row.body), Instance(row.version, row.digest, true));
    var made := Repair(c.decode(row.body), FRESH);
    assert Without(s.teams[Governed(k) := made], Governed(k)) == Without(s.teams, Governed(k));
  }

  // What an unfinished creation can have changed.
  lemma UnfinishedCreation(c: Codec, s: State, k: Key, version: Option<nat>, n: nat)
    requires k !in s.instances && n < |CreateWrites(c, s, k, version)|
    ensures var t := ApplyFirst(s, CreateWrites(c, s, k, version), n);
            && t.instances == s.instances && t.templates == s.templates
            && forall other :: other != Governed(k) ==> Lookup(t.teams, other) == Lookup(s.teams, other)
  {
  }

  lemma SameButOne<K(!new), V(!new)>(a: map<K, V>, b: map<K, V>, k: K, v: V)
    requires forall n :: n != k ==> Lookup(a, n) == Lookup(b, n)
    ensures a[k := v] == b[k := v] && Without(a, k) == Without(b, k)
  {
    var (x, y, p, q) := (a[k := v], b[k := v], Without(a, k), Without(b, k));
    forall n ensures Lookup(x, n) == Lookup(y, n) && Lookup(p, n) == Lookup(q, n) {
      assert n != k ==> Lookup(a, n) == Lookup(b, n);
    }
    SameLookups(x, y);
    SameLookups(p, q);
  }

  // A creation cut short anywhere and tried again leaves exactly what an undisturbed one
  // leaves: nothing of the first attempt survives.
  lemma CreationCanBeRetried(c: Codec, s: State, k: Key, version: Option<nat>, request: Request, writes: nat)
    requires k !in s.instances
    ensures var op := Resolve(k, version, request);
            Complete(c, Try(c, s, Attempt(op, writes)), op) == Complete(c, s, op)
  {
    var op := Resolve(k, version, request);
    if MayCreate(c, s, k, version, request) {
      CreationMakes(c, s, k, version);
      var t := Try(c, s, Attempt(op, writes));
      if writes < |CreateWrites(c, s, k, version)| {
        UnfinishedCreation(c, s, k, version, writes);
      }
      if k !in t.instances {
        assert t.instances == s.instances && t.templates == s.templates;
        assert forall other :: other != Governed(k) ==> Lookup(t.teams, other) == Lookup(s.teams, other);
        CreationMakes(c, t, k, version);
        SameButOne(t.teams, s.teams, Governed(k), Repair(c.decode(WantedTemplate(s, k, version).value.body), FRESH));
      }
    }
  }

  lemma ReactivationMakes(c: Codec, s: State, k: Key)
    requires k in s.instances
    ensures var team := if Governed(k) in s.teams then s.teams[Governed(k)].(active := true) else FRESH;
            ApplyFirst(s, ReactivateWrites(c, s, k), |ReactivateWrites(c, s, k)|)
            == s.(instances := s.instances[k := s.instances[k].(active := true)],
                  teams := s.teams[Governed(k) := Repair(TemplateOf(c, s, k), team)])
  {
    var team := if Governed(k) in s.teams then s.teams[Governed(k)].(active := true) else FRESH;
    var ws := ReactivateWrites(c, s, k);
    var row := s.instances[k].(active := true);
    var members := MemberWrites(Governed(k), TemplateOf(c, s, k), team);
    assert ws == [] + members + [InstanceRow(k, Some(row))];
    MembersEndInRepair(Governed(k), TemplateOf(c, s, k), team);
    MembersThenLast(s, ws, [], members, Governed(k), Repair(TemplateOf(c, s, k), team), InstanceRow(k, Some(row)));
  }

  // What resolving can reach from here.
  ghost predicate Reaches(c: Codec, s: State, k: Key, version: Option<nat>, request: Request) {
    if k in s.instances then s.instances[k].active || MayReactivate(s, k, version, request)
    else MayCreate(c, s, k, version, request) && !IdTaken(s.instances, k)
  }

  lemma RowAfterResolving(c: Codec, s: State, k: Key, version: Option<nat>, request: Request)
    requires Registered(c, s)
    ensures var d := Complete(c, s, Resolve(k, version, request));
            && (k in d.instances && d.instances[k].active <==> Reaches(c, s, k, version, request))
            && (k in d.instances <==> k in s.instances || Reaches(c, s, k, version, request))
            && (k in s.instances ==> d.instances[k].(active := true) == s.instances[k].(active := true))
            && (forall j :: j != k ==> Lookup(d.instances, j) == Lookup(s.instances, j))
  {
    if k in s.instances {
      ReactivationMakes(c, s, k);
    } else if MayCreate(c, s, k, version, request) {
      CreationMakes(c, s, k, version);
    }
  }

  lemma TeamAfterResolving(c: Codec, s: State, k: Key, version: Option<nat>, request: Request)
    requires Reaches(c, s, k, version, request)
    ensures var d := Complete(c, s, Resolve(k, version, request));
            Governed(k) in d.teams && d.teams[Governed(k)].active <==>
              (k in s.instances && s.instances[k].active ==>
                 Governed(k) in s.teams && s.teams[Governed(k)].active)
  {
    if k in s.instances {
      ReactivationMakes(c, s, k);
    } else {
      CreationMakes(c, s, k, version);
    }
  }

  // After any run of interrupted operations, resolving reaches the one instance of the key,
  // the row that is there with its pins or a new one, exactly if the checks let it and no
  // other row has the id. The team of the instance it reaches runs, unless the row was
  // active while the team was not, which only a reconciliation repairs.
  lemma RetryReachesTheInstance(c: Codec, start: State, attempts: seq<Attempt>, k: Key, version: Option<nat>,
                                request: Request)
    requires Registered(c, start)
    ensures var s := TryAll(c, start, attempts);
            var d := Complete(c, s, Resolve(k, version, request));
            && (k in d.instances && d.instances[k].active <==> Reaches(c, s, k, version, request))
            && (k in d.instances <==> k in s.instances || Reaches(c, s, k, version, request))
            && (k in s.instances ==> d.instances[k].(active := true) == s.instances[k].(active := true))
            && (forall j :: j != k ==> Lookup(d.instances, j) == Lookup(s.instances, j))
            && (k in d.instances ==>
                  Resolvable(d.templates, k.template, d.instances[k].version, d.instances[k].digest))
            && (Reaches(c, s, k, version, request) ==>
                  (Governed(k) in d.teams && d.teams[Governed(k)].active <==>
                   (k in s.instances && s.instances[k].active ==>
                      Governed(k) in s.teams && s.teams[Governed(k)].active)))
  {
    var s := TryAll(c, start, attempts);
    var op := Resolve(k, version, request);
    EveryRunKeepsRegistered(c, start, attempts);
    TryKeepsRegistered(c, s, Attempt(op, |Writes(c, s, op)|));
    RowAfterResolving(c, s, k, version, request);
    if Reaches(c, s, k, version, request) {
      TeamAfterResolving(c, s, k, version, request);
    }
  }

  // A creation that the checks let through fails exactly on a taken id; then it leaves no
  // team either, not even one that an earlier crash had left behind.
  lemma TakenIdLeavesNothing(c: Codec, s: State, k: Key, version: Option<nat>, request: Request)
    requires k !in s.instances && MayCreate(c, s, k, version, request)
    ensures var d := Complete(c, s, Resolve(k, version, request));
            && (k in d.instances <==> !IdTaken(s.instances, k))
            && (Governed(k) in d.teams <==> !IdTaken(s.instances, k))
            && (IdTaken(s.instances, k) ==> d.instances == s.instances)
  {
    CreationMakes(c, s, k, version);
  }

  // The ids that stand in the way of a creation, told from the keys alone.
  lemma IdTakenIff(instances: map<Key, Instance>, k: Key)
    ensures IdTaken(instances, k)
            <==> exists j :: j in instances && j != k && (Shadows(j, k) || Shadows(k, j))
  {
    forall j | j in instances && j != k
      ensures IdText(j) == IdText(k) <==> Shadows(j, k) || Shadows(k, j)
    {
      IdsCollideIff(j, k);
    }
  }

  // The input for which resolving never gets there: with an instance of `ops` for the chat
  // `chat:x`, the template `ops:chat` cannot have one for the chat `x`.
  lemma CreationCanFail(c: Codec, s: State, first: Request, second: Request)
    requires s.instances == map[]
    requires MayCreate(c, s, Key("ops", ChatScope, "chat:x"), None, first)
    ensures var (j, k) := (Key("ops", ChatScope, "chat:x"), Key("ops:chat", ChatScope, "x"));
            var t := Complete(c, s, Resolve(j, None, first));
            var u := Complete(c, t, Resolve(k, None, second));
            j in t.instances && u.instances == t.instances && !Reaches(c, t, k, None, second)
  {
    var (j, k) := (Key("ops", ChatScope, "chat:x"), Key("ops:chat", ChatScope, "x"));
    IdsCanCollide();
    CreationMakes(c, s, j, None);
    var t := Complete(c, s, Resolve(j, None, first));
    assert j in t.instances && t.instances.Keys == {j};
    if MayCreate(c, t, k, None, second) {
      CreationMakes(c, t, k, None);
    }
  }

  lemma SameLookups<K(!new), V(!new)>(a: map<K, V>, b: map<K, V>)
    requires forall n :: Lookup(a, n) == Lookup(b, n)
    ensures a == b
  {
    forall n: K ensures n in a <==> n in b {
      assert Lookup(a, n) == Lookup(b, n);
    }
    forall n: K | n in a ensures a[n] == b[n] {
      assert Lookup(a, n) == Lookup(b, n);
    }
  }
}
