/**
 Leases of the agents of governed teams. A lease is live until it is recycled, which
 happens once; a unique index allows one live lease for each agent of an instance.
 */
module AgentLeases {
  import opened Common

  datatype Kind = Template | Custom | Temporary

  datatype Lease = Lease(
    instance: nat, agent: string, kind: Kind,
    expiresAt: Option<int>, lastActiveAt: int, recycledAt: Option<int>)
  {
    predicate Live() {
      recycledAt.None?
    }
  }

  datatype Config = Config(active: bool, maxAgents: nat, maxTemporaryAgents: nat, idleMs: Option<nat>)

  // `agents` holds the upstream agents: true for those not stopped.
  datatype State = State(
    leases: map<nat, Lease>, agents: map<(nat, string), bool>, instances: map<nat, Config>, nextId: nat)

  datatype Outcome =
    | Leased(id: nat)
    | NotFound
    | TtlRequired
    | TtlForbidden
    | QuotaExceeded
    | AlreadyExists
    | IndexViolation

  datatype Event =
    | Open(instance: nat, config: Config, templateAgents: set<string>, now: int)
    | Close(instance: nat)
    | SetActive(instance: nat, active: bool)
    | Create(instance: nat, agent: string, kind: Kind, ttl: Option<int>, now: int)
    | StopAgent(instance: nat, agent: string, now: int)
    | DeleteAgent(instance: nat, agent: string, now: int)
    | Touch(instance: nat, agent: string, now: int)
    | Reap(now: int)
    | Upstream(instance: nat, agent: string, running: Option<bool>)

  // ---------- Single statements ----------

  ghost predicate IsLive(leases: map<nat, Lease>, id: nat, i: nat, agent: string) {
    id in leases && leases[id].Live() && leases[id].instance == i && leases[id].agent == agent
  }

  ghost function ActiveLease(leases: map<nat, Lease>, i: nat, agent: string): (id: Option<nat>)
    ensures id.Some? ==> IsLive(leases, id.value, i, agent)
    ensures id.None? ==> forall j: nat :: !IsLive(leases, j, i, agent)
  {
    if j: nat :| IsLive(leases, j, i, agent) then var j: nat :| IsLive(leases, j, i, agent); Some(j) else None
  }

  function Temporaries(leases: map<nat, Lease>, i: nat): set<nat> {
    set id | id in leases && leases[id].instance == i && leases[id].kind == Temporary && leases[id].Live()
  }

  function Running(agents: map<(nat, string), bool>, i: nat): set<(nat, string)> {
    set a | a in agents && a.0 == i && agents[a]
  }

  predicate Due(l: Lease, config: Config, now: int) {
    && l.kind == Temporary && l.Live()
    && ((l.expiresAt.Some? && l.expiresAt.value <= now)
        || (config.idleMs.Some? && l.lastActiveAt <= now - config.idleMs.value))
  }

  function DueLeases(s: State, now: int): set<nat> {
    set id | id in s.leases && s.leases[id].instance in s.instances
             && Due(s.leases[id], s.instances[s.leases[id].instance], now)
  }

  function Recycle(leases: map<nat, Lease>, id: nat, now: int): map<nat, Lease> {
    if id in leases && leases[id].Live() then leases[id := leases[id].(recycledAt := Some(now))] else leases
  }

  ghost function RecycleActive(leases: map<nat, Lease>, i: nat, agent: string, now: int): map<nat, Lease> {
    match ActiveLease(leases, i, agent)
    case Some(id) => Recycle(leases, id, now)
    case None => leases
  }

  function RecycleAll(leases: map<nat, Lease>, ids: set<nat>, now: int): map<nat, Lease> {
    map id | id in leases ::
      if id in ids && leases[id].Live() then leases[id].(recycledAt := Some(now)) else leases[id]
  }

  function StopAll(agents: map<(nat, string), bool>, leases: map<nat, Lease>, ids: set<nat>): map<(nat, string), bool> {
    map a | a in agents ::
      agents[a] && !exists id :: id in ids && id in leases && (leases[id].instance, leases[id].agent) == a
  }

  // ---------- Operations ----------

  ghost function Creation(s: State, i: nat, agent: string, kind: Kind, ttl: Option<int>, now: int): (State, Outcome) {
    if i !in s.instances || !s.instances[i].active then (s, NotFound)
    else if kind == Temporary && (ttl.None? || ttl.value <= 0) then (s, TtlRequired)
    else if kind == Custom && ttl.Some? then (s, TtlForbidden)
    else if |Running(s.agents, i)| >= s.instances[i].maxAgents then (s, QuotaExceeded)
    else if kind == Temporary && |Temporaries(s.leases, i)| >= s.instances[i].maxTemporaryAgents then (s, QuotaExceeded)
    else if (i, agent) in s.agents && s.agents[(i, agent)] then (s, AlreadyExists)
    else
      var leases := RecycleActive(s.leases, i, agent, now);
      if ActiveLease(leases, i, agent).Some? then
        (s.(leases := leases, agents := s.agents[(i, agent) := false]), IndexViolation)
      else
        var expiresAt := if kind == Temporary then Some(now + ttl.value) else None;
        (s.(leases := leases[s.nextId := Lease(i, agent, kind, expiresAt, now, None)],
            agents := s.agents[(i, agent) := true], nextId := s.nextId + 1),
         Leased(s.nextId))
  }

  // The rows for the agents of a template, numbered from `id`.
  ghost function TemplateLeases(names: set<string>, i: nat, now: int, id: nat): map<nat, Lease> {
    if names == {} then map[]
    else
      var name :| name in names;
      TemplateLeases(names - {name}, i, now, id + 1)[id := Lease(i, name, Template, None, now, None)]
  }

  ghost function Step(s: State, e: Event): State {
    match e
    case Open(i, config, names, now) =>
      if i in s.instances then s
      else
        s.(instances := s.instances[i := config],
           leases := s.leases + TemplateLeases(names, i, now, s.nextId), nextId := s.nextId + |names|)
    case Close(i) =>
      s.(instances := Without(s.instances, i),
         leases := map id | id in s.leases && s.leases[id].instance != i :: s.leases[id])
    case SetActive(i, active) =>
      if i in s.instances then s.(instances := s.instances[i := s.instances[i].(active := active)]) else s
    case Create(i, agent, kind, ttl, now) =>
      if kind == Template then s else Creation(s, i, agent, kind, ttl, now).0
    case StopAgent(i, agent, now) =>
      if i !in s.instances || !s.instances[i].active || (i, agent) !in s.agents then s
      else s.(agents := s.agents[(i, agent) := false], leases := RecycleActive(s.leases, i, agent, now))
    case DeleteAgent(i, agent, now) =>
      if i !in s.instances || !s.instances[i].active then s
      else s.(agents := Without(s.agents, (i, agent)), leases := RecycleActive(s.leases, i, agent, now))
    case Touch(i, agent, now) =>
      (match ActiveLease(s.leases, i, agent)
       case Some(id) => s.(leases := s.leases[id := s.leases[id].(lastActiveAt := Max(s.leases[id].lastActiveAt, now))])
       case None => s)
    case Reap(now) =>
      s.(leases := RecycleAll(s.leases, DueLeases(s, now), now),
         agents := StopAll(s.agents, s.leases, DueLeases(s, now)))
    case Upstream(i, agent, Some(running)) => s.(agents := s.agents[(i, agent) := running])
    case Upstream(i, agent, None) => s.(agents := Without(s.agents, (i, agent)))
  }

  ghost function Run(s: State, events: seq<Event>): State {
    if events == [] then s else Step(Run(s, events[..|events| - 1]), events[|events| - 1])
  }

  const EMPTY := State(map[], map[], map[], 0)

  // ---------- Invariant ----------

  ghost predicate Inv(s: State) {
    && (forall id :: id in s.leases ==> id < s.nextId && s.leases[id].instance in s.instances)
    && OneLive(s.leases)
    && (forall i :: i in s.instances ==> |Temporaries(s.leases, i)| <= s.instances[i].maxTemporaryAgents)
  }

  ghost predicate OneLive(leases: map<nat, Lease>) {
    forall a, b :: (a in leases && b in leases && a != b && leases[a].Live() && leases[b].Live()
                    && leases[a].instance == leases[b].instance) ==> leases[a].agent != leases[b].agent
  }

  // Nothing that only recycles, or drops, leases can break the bounds.
  lemma FewerLive(before: map<nat, Lease>, after: map<nat, Lease>)
    requires forall id :: id in after && after[id].Live() ==>
               id in before && before[id].Live() && before[id].instance == after[id].instance
               && before[id].agent == after[id].agent && before[id].kind == after[id].kind
    ensures OneLive(before) ==> OneLive(after)
    ensures forall i :: |Temporaries(after, i)| <= |Temporaries(before, i)|
  {
    forall i ensures |Temporaries(after, i)| <= |Temporaries(before, i)| {
      SubsetSize(Temporaries(after, i), Temporaries(before, i));
    }
  }

  lemma {:induction false} TemplateLeasesAre(names: set<string>, i: nat, now: int, id: nat)
    ensures var t := TemplateLeases(names, i, now, id);
            && OneLive(t)
            && forall j :: j in t ==> id <= j < id + |names| && t[j].instance == i && t[j].kind == Template
                                      && t[j].Live() && t[j].agent in names
  {
    if names != {} {
      var name :| name in names && TemplateLeases(names, i, now, id)
        == TemplateLeases(names - {name}, i, now, id + 1)[id := Lease(i, name, Template, None, now, None)];
      TemplateLeasesAre(names - {name}, i, now, id + 1);
    }
  }

  // Recycling the live lease of an agent leaves it none, so that the insert that follows
  // never trips the unique index.
  lemma RecycleFrees(s: State, i: nat, agent: string, now: int)
    requires Inv(s)
    ensures Inv(s.(leases := RecycleActive(s.leases, i, agent, now)))
    ensures ActiveLease(RecycleActive(s.leases, i, agent, now), i, agent) == None
  {
    FewerLive(s.leases, RecycleActive(s.leases, i, agent, now));
  }

  lemma InsertKeepsOneLive(leases: map<nat, Lease>, id: nat, lease: Lease)
    requires OneLive(leases) && id !in leases
    requires ActiveLease(leases, lease.instance, lease.agent) == None
    ensures OneLive(leases[id := lease])
  {
    forall j: nat ensures !IsLive(leases, j, lease.instance, lease.agent) {}
    var after := leases[id := lease];
    forall a, b | a in after && b in after && a != b && after[a].Live() && after[b].Live()
                  && after[a].instance == after[b].instance
      ensures after[a].agent != after[b].agent
    {
      assert !IsLive(leases, a, lease.instance, lease.agent) && !IsLive(leases, b, lease.instance, lease.agent);
    }
  }

  lemma InsertCounts(leases: map<nat, Lease>, id: nat, lease: Lease, i: nat)
    requires id !in leases && lease.Live()
    ensures |Temporaries(leases[id := lease], i)|
            == |Temporaries(leases, i)| + if i == lease.instance && lease.kind == Temporary then 1 else 0
  {
    var one := if i == lease.instance && lease.kind == Temporary then {id} else {};
    assert Temporaries(leases[id := lease], i) == Temporaries(leases, i) + one;
  }

  lemma InsertKeeps(s: State, lease: Lease)
    requires Inv(s) && lease.Live() && lease.instance in s.instances
    requires ActiveLease(s.leases, lease.instance, lease.agent) == None
    requires lease.kind == Temporary ==>
               |Temporaries(s.leases, lease.instance)| < s.instances[lease.instance].maxTemporaryAgents
    ensures Inv(s.(leases := s.leases[s.nextId := lease], nextId := s.nextId + 1))
  {
    InsertKeepsOneLive(s.leases, s.nextId, lease);
    forall i | i in s.instances
      ensures |Temporaries(s.leases[s.nextId := lease], i)| <= s.instances[i].maxTemporaryAgents
    {
      InsertCounts(s.leases, s.nextId, lease, i);
    }
  }

  lemma CreateKeeps(s: State, i: nat, agent: string, kind: Kind, ttl: Option<int>, now: int)
    requires Inv(s) && kind != Template
    ensures Inv(Creation(s, i, agent, kind, ttl, now).0)
    ensures Creation(s, i, agent, kind, ttl, now).1 != IndexViolation
  {
    var (t, out) := Creation(s, i, agent, kind, ttl, now);
    RecycleFrees(s, i, agent, now);
    if out.Leased? {
      var freed := s.(leases := RecycleActive(s.leases, i, agent, now));
      FewerLive(s.leases, freed.leases);
      InsertKeeps(freed, t.leases[s.nextId]);
    }
  }

  lemma FewerTemporaries(before: map<nat, Lease>, after: map<nat, Lease>, i: nat)
    requires forall id :: id in after && after[id].kind == Temporary ==> id in before && before[id] == after[id]
    ensures |Temporaries(after, i)| <= |Temporaries(before, i)|
  {
    SubsetSize(Temporaries(after, i), Temporaries(before, i));
  }

  lemma JoinKeepsOneLive(a: map<nat, Lease>, b: map<nat, Lease>, i: nat)
    requires OneLive(a) && OneLive(b)
    requires forall id :: id in a ==> a[id].instance != i
    requires forall id :: id in b ==> b[id].instance == i
    ensures OneLive(a + b)
  {
  }

  lemma OpenKeeps(s: State, i: nat, config: Config, names: set<string>, now: int)
    requires Inv(s) && i !in s.instances
    ensures Inv(Step(s, Open(i, config, names, now)))
  {
    var rows := TemplateLeases(names, i, now, s.nextId);
    TemplateLeasesAre(names, i, now, s.nextId);
    JoinKeepsOneLive(s.leases, rows, i);
    var t := Step(s, Open(i, config, names, now));
    forall k | k in t.instances ensures |Temporaries(t.leases, k)| <= t.instances[k].maxTemporaryAgents {
      if k == i {
        assert Temporaries(t.leases, k) == {};
      } else {
        FewerTemporaries(s.leases, t.leases, k);
      }
    }
  }

  // What all operations that insert no lease have in common.
  ghost predicate Shrinks(s: State, t: State) {
    && t.nextId == s.nextId
    && (forall id :: id in t.leases ==>
          && id in s.leases && t.leases[id].instance == s.leases[id].instance
          && s.leases[id].instance in t.instances
          && t.leases[id].agent == s.leases[id].agent && t.leases[id].kind == s.leases[id].kind
          && (t.leases[id].Live() ==> s.leases[id].Live()))
    && (forall i :: i in t.instances ==>
          i in s.instances && t.instances[i].maxTemporaryAgents == s.instances[i].maxTemporaryAgents)
  }

  lemma ShrinkKeeps(s: State, t: State)
    requires Inv(s) && Shrinks(s, t)
    ensures Inv(t)
  {
    FewerLive(s.leases, t.leases);
  }

  lemma RecyclingShrinks(s: State, e: Event)
    requires Inv(s) && (e.StopAgent? || e.DeleteAgent? || e.Touch?)
    ensures Shrinks(s, Step(s, e))
  {
  }

  lemma OthersShrink(s: State, e: Event)
    requires Inv(s) && (e.Close? || e.SetActive? || e.Reap? || e.Upstream?)
    ensures Shrinks(s, Step(s, e))
  {
  }

  lemma StepKeepsInv(s: State, e: Event)
    requires Inv(s)
    ensures Inv(Step(s, e))
  {
    if e.Open? {
      if e.instance !in s.instances {
        OpenKeeps(s, e.instance, e.config, e.templateAgents, e.now);
      }
    } else if e.Create? {
      if e.kind != Template {
        CreateKeeps(s, e.instance, e.agent, e.kind, e.ttl, e.now);
      }
    } else {
      if e.StopAgent? || e.DeleteAgent? || e.Touch? {
        RecyclingShrinks(s, e);
      } else {
        OthersShrink(s, e);
      }
      ShrinkKeeps(s, Step(s, e));
    }
  }

  // In every reachable state each agent has at most one live lease, and the live temporary
  // leases of an instance stay within its quota.
  lemma {:induction false} EveryRunKeepsInv(events: seq<Event>)
    ensures Inv(Run(EMPTY, events))
  {
    if events != [] {
      EveryRunKeepsInv(events[..|events| - 1]);
      StepKeepsInv(Run(EMPTY, events[..|events| - 1]), events[|events| - 1]);
    }
  }

  // ---------- Recycled once ----------

  // As long as its instance is there, a recycled lease never changes again: not its time
  // of recycling, not anything else.
  lemma RecycledStays(s: State, e: Event, id: nat)
    requires Inv(s) && id in s.leases && !s.leases[id].Live()
    requires e != Close(s.leases[id].instance)
    ensures id in Step(s, e).leases && Step(s, e).leases[id] == s.leases[id]
  {
    if e.Open? {
      TemplateLeasesAre(e.templateAgents, e.instance, e.now, s.nextId);
    }
  }

  lemma {:induction false} RecycledOnce(s: State, events: seq<Event>, id: nat)
    requires Inv(s) && id in s.leases && !s.leases[id].Live()
    requires Close(s.leases[id].instance) !in events
    ensures Inv(Run(s, events)) && id in Run(s, events).leases && Run(s, events).leases[id] == s.leases[id]
  {
    if events != [] {
      var last := events[|events| - 1];
      RecycledOnce(s, events[..|events| - 1], id);
      assert last in events;
      RecycledStays(Run(s, events[..|events| - 1]), last, id);
      StepKeepsInv(Run(s, events[..|events| - 1]), last);
    }
  }

  // ---------- Reaping ----------

  // No lease that is due survives, no other lease is touched, exactly the agents of due
  // leases are stopped, and reaping again at the same time does nothing.
  lemma NothingDueSurvives(s: State, now: int)
    requires Inv(s)
    ensures var t := Step(s, Reap(now));
            && DueLeases(t, now) == {}
            && t.leases.Keys == s.leases.Keys
            && (forall id :: id in s.leases ==>
                  t.leases[id] == if Due(s.leases[id], s.instances[s.leases[id].instance], now)
                                  then s.leases[id].(recycledAt := Some(now)) else s.leases[id])
            && t.agents.Keys == s.agents.Keys
            && (forall a :: a in s.agents ==>
                  (t.agents[a] <==>
                   s.agents[a] && forall id :: id in DueLeases(s, now) ==> (s.leases[id].instance, s.leases[id].agent) != a))
            && Step(t, Reap(now)) == t
  {
    var t := Step(s, Reap(now));
    assert t.leases == RecycleAll(t.leases, {}, now);
    assert t.agents == StopAll(t.agents, t.leases, {});
  }

  // A temporary lease that is never touched is due as soon as its time to live, or the
  // idle time, is over, and not before.
  lemma WhenDue(s: State, i: nat, agent: string, ttl: int, created: int, now: int)
    requires Inv(s) && Creation(s, i, agent, Temporary, Some(ttl), created).1.Leased?
    ensures var (t, out) := Creation(s, i, agent, Temporary, Some(ttl), created);
            out.id in DueLeases(t, now) <==>
            now >= created + ttl
            || (s.instances[i].idleMs.Some? && now >= created + s.instances[i].idleMs.value)
  {
  }

  // ---------- The extension's methods ----------

  class LeaseTable {
    var leases: map<nat, Lease>
    var agents: map<(nat, string), bool>
    var instances: map<nat, Config>
    var nextId: nat

    ghost function View(): State
      reads this
    {
      State(leases, agents, instances, nextId)
    }

    ghost predicate Valid()
      reads this
    {
      Inv(View())
    }

    constructor ()
      ensures Valid() && View() == EMPTY
    {
      leases, agents, instances, nextId := map[], map[], map[], 0;
    }

    method GetActiveLease(i: nat, agent: string) returns (id: Option<nat>)
      requires OneLive(leases)
      ensures id == ActiveLease(leases, i, agent)
    {
      var todo := leases.Keys;
      while todo != {}
        invariant todo <= leases.Keys
        invariant forall j: nat :: IsLive(leases, j, i, agent) ==> j in todo
        decreases |todo|
      {
        var j :| j in todo;
        if leases[j].Live() && leases[j].instance == i && leases[j].agent == agent {
          assert IsLive(leases, j, i, agent);
          return Some(j);
        }
        todo := todo - {j};
      }
      id := None;
    }

    method MarkLeaseRecycled(id: nat, now: int)
      requires id in leases
      modifies `leases
      ensures leases == Recycle(old(leases), id, now)
    {
      if leases[id].recycledAt.Some? {
        return;
      }
      leases := leases[id := leases[id].(recycledAt := Some(now))];
    }

    method RecycleActiveLease(i: nat, agent: string, now: int)
      requires OneLive(leases)
      modifies `leases
      ensures leases == RecycleActive(old(leases), i, agent, now)
    {
      var stale := GetActiveLease(i, agent);
      if stale.Some? {
        MarkLeaseRecycled(stale.value, now);
      }
    }

    // Never fails on the unique index.
    method CreateAgent(i: nat, agent: string, kind: Kind, ttl: Option<int>, now: int) returns (out: Outcome)
      requires Valid() && kind != Template
      modifies this
      ensures Valid() && out != IndexViolation
      ensures (View(), out) == Creation(old(View()), i, agent, kind, ttl, now)
      ensures out.Leased? ==> |Running(old(agents), i)| < instances[i].maxAgents
    {
      CreateKeeps(View(), i, agent, kind, ttl, now);
      if i !in instances || !instances[i].active {
        return NotFound;
      }
      if kind == Temporary && (ttl.None? || ttl.value <= 0) {
        return TtlRequired;
      }
      if kind == Custom && ttl.Some? {
        return TtlForbidden;
      }
      if |Running(agents, i)| >= instances[i].maxAgents {
        return QuotaExceeded;
      }
      if kind == Temporary && |Temporaries(leases, i)| >= instances[i].maxTemporaryAgents {
        return QuotaExceeded;
      }
      if (i, agent) in agents && agents[(i, agent)] {
        return AlreadyExists;
      }
      RecycleFrees(View(), i, agent, now);
      RecycleActiveLease(i, agent, now);
      agents := agents[(i, agent) := true];
      var expiresAt := if kind == Temporary then Some(now + ttl.value) else None;
      leases := leases[nextId := Lease(i, agent, kind, expiresAt, now, None)];
      nextId := nextId + 1;
      out := Leased(nextId - 1);
    }

    method StopAgent(i: nat, agent: string, now: int)
      requires Valid()
      modifies this
      ensures Valid() && View() == Step(old(View()), Event.StopAgent(i, agent, now))
    {
      StepKeepsInv(View(), Event.StopAgent(i, agent, now));
      if i in instances && instances[i].active && (i, agent) in agents {
        agents := agents[(i, agent) := false];
        RecycleActiveLease(i, agent, now);
      }
    }

    method DeleteAgent(i: nat, agent: string, now: int)
      requires Valid()
      modifies this
      ensures Valid() && View() == Step(old(View()), Event.DeleteAgent(i, agent, now))
    {
      StepKeepsInv(View(), Event.DeleteAgent(i, agent, now));
      if i in instances && instances[i].active {
        agents := Without(agents, (i, agent));
        RecycleActiveLease(i, agent, now);
      }
    }

    method TouchAgent(i: nat, agent: string, now: int)
      requires Valid()
      modifies this
      ensures Valid() && View() == Step(old(View()), Touch(i, agent, now))
    {
      StepKeepsInv(View(), Touch(i, agent, now));
      var id := GetActiveLease(i, agent);
      if id.Some? {
        var lease := leases[id.value];
        leases := leases[id.value := lease.(lastActiveAt := Max(lease.lastActiveAt, now))];
      }
    }

    method RecycleLeases(ids: set<nat>, now: int)
      requires ids <= leases.Keys
      modifies `leases
      ensures leases == RecycleAll(old(leases), ids, now)
    {
      var todo := ids;
      while todo != {}
        invariant todo <= ids && ids <= leases.Keys
        invariant leases == RecycleAll(old(leases), ids - todo, now)
        decreases |todo|
      {
        var id :| id in todo;
        MarkLeaseRecycled(id, now);
        todo := todo - {id};
      }
      assert ids - todo == ids;
    }

    method ReapExpired(now: int) returns (reaped: set<nat>)
      requires Valid()
      modifies this
      ensures Valid() && View() == Step(old(View()), Reap(now))
      ensures reaped == DueLeases(old(View()), now) && DueLeases(View(), now) == {}
    {
      StepKeepsInv(View(), Reap(now));
      NothingDueSurvives(View(), now);
      reaped := set id | id in leases && leases[id].instance in instances
                         && Due(leases[id], instances[leases[id].instance], now);
      assert reaped == DueLeases(View(), now);
      agents := StopAll(agents, leases, reaped);
      RecycleLeases(reaped, now);
    }
  }
}
