/**
 Recovery after a controlled restart, replayed at every startup until it is done. A crash
 may fall between any two durable writes: it loses the program counter and nothing else.
 The scheduler keeps at most one task for each deduplication key.
 */
module RestartRecovery {
  import opened Common
  import opened RestartPlan

  datatype RecordStatus = Claimed | Restarting | Healthy | Failed

  // The restart request in the durable ledger; `decided` once its continuation is.
  datatype Record = Record(
    status: RecordStatus, resume: bool, requesterBot: Option<string>, requesterChat: Option<string>, decided: bool)

  datatype Pc =
    | Down
    | Started
    | Ready
    | At(next: nat)                                    // about to handle this participant
    | Sent(at: nat, found: bool, continuation: Continuation)
    | Recovered
    | Deciding
    | Clearing
    | Ended

  datatype State = State(
    requestId: string, plan: Option<Plan>, breadcrumb: bool, record: Option<Record>, tasks: seq<string>, pc: Pc)

  datatype Event =
    | Crash
    | Boot(stale: bool)
    | CheckHealth(ok: bool)
    | ReadPlan
    | Schedule(found: bool, ok: bool)
    | WriteParticipant(delivered: bool, now: int)
    | Skip
    | Complete(now: int)
    | Throw
    | ChooseContinuation(registered: bool, ok: bool)
    | Decide
    | Clear

  // ---------- Conditions ----------

  predicate Terminal(s: State) {
    s.record.Some? && (s.record.value.status == Healthy || s.record.value.status == Failed)
  }

  predicate IsHealthy(s: State) {
    s.record.Some? && s.record.value.status == Healthy
  }

  predicate OwnPlan(s: State) {
    s.plan.Some? && s.plan.value.requestId == s.requestId
  }

  predicate Required(s: State, p: Participant) {
    IsHealthy(s) && s.plan.Some? && s.plan.value.resume && p.wasActive && !IsInternalChat(p.key.chat)
  }

  function MainKey(requestId: string): string {
    "restart-resume:" + requestId
  }

  function Scheduling(tasks: seq<string>, key: string): seq<string> {
    if key in tasks then tasks else tasks + [key]
  }

  function CompletionNotice(p: Participant, found: bool, delivered: bool): Notice {
    if !p.sendCards then NotSent else if found && delivered then Delivered else Undelivered
  }

  predicate IsRecovered(s: State, p: Participant, found: bool, continuation: Continuation, delivered: bool) {
    found && (Required(s, p) ==> continuation == Scheduled)
    && (p.sendCards ==> CompletionNotice(p, found, delivered) == Delivered)
  }

  // Every candidate with the key of participant `i` is given its results.
  function HandledAll(s: State, i: nat, found: bool, continuation: Continuation, delivered: bool, now: int): seq<Participant>
    requires s.plan.Some? && i < |s.plan.value.participants|
  {
    var ps := s.plan.value.participants;
    var p := ps[i];
    seq(|ps|, j requires 0 <= j < |ps| =>
      if ps[j].key != p.key then ps[j]
      else ps[j].(completionNotice := Some(CompletionNotice(p, found, delivered)), continuation := Some(continuation),
                  recoveredAt := if IsRecovered(s, p, found, continuation, delivered) then Some(now) else ps[j].recoveredAt))
  }

  predicate AllRecovered(ps: seq<Participant>) {
    forall i :: 0 <= i < |ps| ==> ps[i].recoveredAt.Some?
  }

  predicate NeedsRequesterTask(s: State, registered: bool) {
    && s.record.Some? && !s.record.value.decided && IsHealthy(s) && s.record.value.resume
    && s.record.value.requesterBot.Some? && s.record.value.requesterChat.Some?
    && !IsInternalOwner(s.record.value.requesterChat.value)
    && registered
  }

  predicate IsInternalOwner(chat: string) {
    IsInternalChat(chat) || StartsWith(chat, "local:worker") || StartsWith(chat, "local:arc")
  }

  // ---------- Steps ----------

  function BootStep(s: State, stale: bool): State {
    if !s.breadcrumb then s.(pc := Ended)
    else if s.record.None? || (stale && s.record.value.decided) then s.(breadcrumb := false, pc := Ended)
    else s.(pc := Started)
  }

  function HealthStep(s: State, ok: bool): State
    requires s.record.Some?
  {
    var r := s.record.value;
    var status := match r.status
      case Claimed => Failed
      case Restarting => if ok then Healthy else Failed
      case other => other;
    s.(record := Some(r.(status := status)), pc := Ready)
  }

  function ScheduleStep(s: State, i: nat, found: bool, ok: bool): State
    requires s.plan.Some? && i < |s.plan.value.participants|
  {
    var p := s.plan.value.participants[i];
    if !found then s.(pc := Sent(i, found, Broken))
    else if Required(s, p) then
      if ok then s.(tasks := Scheduling(s.tasks, ContinuationKey(s.requestId, p.key)), pc := Sent(i, found, Scheduled))
      else s.(pc := Sent(i, found, Broken))
    else s.(pc := Sent(i, found, if !IsHealthy(s) && p.wasActive then Broken else Unneeded))
  }

  function WriteStep(s: State, delivered: bool, now: int): State
    requires s.pc.Sent? && s.plan.Some? && s.pc.at < |s.plan.value.participants|
  {
    var ps := HandledAll(s, s.pc.at, s.pc.found, s.pc.continuation, delivered, now);
    s.(plan := Some(s.plan.value.(participants := ps, updatedAt := now)), pc := At(s.pc.at + 1))
  }

  function CompleteStep(s: State, now: int): State
    requires s.plan.Some?
  {
    if AllRecovered(s.plan.value.participants) then
      s.(plan := Some(s.plan.value.(status := Completed, updatedAt := now)), pc := Recovered)
    else s.(pc := Recovered)
  }

  // What follows the participants: a decision is due, or the breadcrumb is kept.
  function ChooseStep(s: State, registered: bool, ok: bool): State {
    if OwnPlan(s) then s.(pc := if s.plan.value.status == Completed then Deciding else Ended)
    else if NeedsRequesterTask(s, registered) then
      if ok then s.(tasks := Scheduling(s.tasks, MainKey(s.requestId)), pc := Deciding) else s.(pc := Ended)
    else s.(pc := Deciding)
  }

  function Step(s: State, e: Event): State {
    match e
    case Crash => s.(pc := Down)
    case Boot(stale) => if s.pc.Down? then BootStep(s, stale) else s
    case CheckHealth(ok) => if s.pc.Started? && s.record.Some? then HealthStep(s, ok) else s
    case ReadPlan =>
      if !s.pc.Ready? then s
      else if OwnPlan(s) && s.plan.value.status != Cancelled && s.plan.value.status != Completed then s.(pc := At(0))
      else s.(pc := Recovered)
    case Schedule(found, ok) =>
      if s.pc.At? && s.plan.Some? && s.pc.next < |s.plan.value.participants|
         && s.plan.value.participants[s.pc.next].recoveredAt.None?
      then ScheduleStep(s, s.pc.next, found, ok) else s
    case WriteParticipant(delivered, now) =>
      if s.pc.Sent? && s.plan.Some? && s.pc.at < |s.plan.value.participants| then WriteStep(s, delivered, now) else s
    case Skip =>
      if s.pc.At? && s.plan.Some? && s.pc.next < |s.plan.value.participants|
         && s.plan.value.participants[s.pc.next].recoveredAt.Some?
      then s.(pc := At(s.pc.next + 1)) else s
    case Complete(now) =>
      if s.pc.At? && s.plan.Some? && s.pc.next == |s.plan.value.participants| then CompleteStep(s, now) else s
    case Throw => if s.pc.At? || s.pc.Sent? then s.(pc := Ended) else s
    case ChooseContinuation(registered, ok) => if s.pc.Recovered? then ChooseStep(s, registered, ok) else s
    case Decide =>
      if s.pc.Deciding? && s.record.Some? then s.(record := Some(s.record.value.(decided := true)), pc := Clearing) else s
    case Clear => if s.pc.Clearing? then s.(breadcrumb := false, pc := Ended) else s
  }

  function Run(s: State, events: seq<Event>): State {
    if events == [] then s else Step(Run(s, events[..|events| - 1]), events[|events| - 1])
  }

  // What the old process leaves: the breadcrumb, and a plan that no recovery has touched.
  predicate Fresh(s: State) {
    && s.pc == Down && s.breadcrumb && s.tasks == []
    && (s.record.Some? ==> !s.record.value.decided && !Terminal(s))
    && (s.plan.Some? ==> DistinctKeys(s.plan.value.participants))
    && (OwnPlan(s) ==> s.plan.value.status != Completed
                       && forall i :: 0 <= i < |s.plan.value.participants| ==>
                            s.plan.value.participants[i].recoveredAt.None?)
  }

  // ---------- Invariant ----------

  predicate TaskIsWanted(s: State, t: string) {
    || t == MainKey(s.requestId)
    || (OwnPlan(s) && exists i :: 0 <= i < |s.plan.value.participants| && Required(s, s.plan.value.participants[i])
                                  && t == ContinuationKey(s.requestId, s.plan.value.participants[i].key))
  }

  ghost predicate TasksOk(s: State) {
    && (forall i, j :: 0 <= i < j < |s.tasks| ==> s.tasks[i] != s.tasks[j])
    && forall t :: t in s.tasks ==> TaskIsWanted(s, t)
  }

  // A recovered participant that needed a continuation has it.
  predicate RecoveredOk(s: State) {
    OwnPlan(s) ==>
      && DistinctKeys(s.plan.value.participants)
      && (s.plan.value.status == Completed ==> AllRecovered(s.plan.value.participants))
      && forall i :: 0 <= i < |s.plan.value.participants| && s.plan.value.participants[i].recoveredAt.Some? ==>
           Terminal(s)
           && (Required(s, s.plan.value.participants[i]) ==>
                 ContinuationKey(s.requestId, s.plan.value.participants[i].key) in s.tasks)
  }

  predicate PcOk(s: State) {
    && (!s.pc.Down? && !s.pc.Ended? ==> s.record.Some?)
    && (!s.pc.Down? && !s.pc.Ended? && !s.pc.Started? ==> Terminal(s))
    && (s.pc.At? || s.pc.Sent? ==> OwnPlan(s) && s.plan.value.status != Completed)
    && (s.pc.Sent? ==> && s.pc.at < |s.plan.value.participants|
                       && s.plan.value.participants[s.pc.at].recoveredAt.None?
                       && (s.pc.continuation == Scheduled ==>
                             ContinuationKey(s.requestId, s.plan.value.participants[s.pc.at].key) in s.tasks))
    && (s.pc.Clearing? ==> s.record.value.decided)
    && (s.record.Some? && !s.breadcrumb ==> s.record.value.decided)
    && (!Terminal(s) ==> s.tasks == [])
    && (OwnPlan(s) && s.record.Some? && (s.record.value.decided || s.pc.Deciding?) ==> s.plan.value.status == Completed)
  }

  ghost predicate Inv(s: State) {
    TasksOk(s) && RecoveredOk(s) && PcOk(s)
  }

  lemma FreshIsInv(s: State)
    requires Fresh(s)
    ensures Inv(s)
  {
  }

  // Steps that touch neither the plan nor the tasks nor the record.
  lemma QuietStepKeeps(s: State, e: Event)
    requires Inv(s) && (e.Crash? || e.Boot? || e.ReadPlan? || e.Skip? || e.Throw? || e.Clear?)
    ensures Inv(Step(s, e))
  {
    var t := Step(s, e);
    assert forall x :: TaskIsWanted(s, x) ==> TaskIsWanted(t, x);
  }

  lemma HealthKeeps(s: State, ok: bool)
    requires Inv(s)
    ensures Inv(Step(s, CheckHealth(ok)))
  {
  }

  lemma ScheduleKeeps(s: State, found: bool, ok: bool)
    requires Inv(s)
    ensures Inv(Step(s, Schedule(found, ok)))
  {
    var t := Step(s, Schedule(found, ok));
    assert forall x :: TaskIsWanted(s, x) ==> TaskIsWanted(t, x);
    if s.pc.At? && s.pc.next < |s.plan.value.participants| && Required(s, s.plan.value.participants[s.pc.next]) {
      assert TaskIsWanted(t, ContinuationKey(s.requestId, s.plan.value.participants[s.pc.next].key));
    }
  }

  lemma ChooseKeeps(s: State, registered: bool, ok: bool)
    requires Inv(s)
    ensures Inv(Step(s, ChooseContinuation(registered, ok)))
  {
    var t := Step(s, ChooseContinuation(registered, ok));
    assert forall x :: TaskIsWanted(s, x) ==> TaskIsWanted(t, x);
    assert TaskIsWanted(t, MainKey(s.requestId));
  }

  lemma DecideKeeps(s: State)
    requires Inv(s)
    ensures Inv(Step(s, Decide))
  {
  }

  // Writing what became of a participant changes that participant's results only.
  lemma WrittenAre(s: State, delivered: bool, now: int)
    requires s.pc.Sent? && s.plan.Some? && s.pc.at < |s.plan.value.participants|
    requires DistinctKeys(s.plan.value.participants)
    ensures var (old_, new_) := (s.plan.value.participants, WriteStep(s, delivered, now).plan.value.participants);
            && |new_| == |old_|
            && (forall j :: 0 <= j < |old_| ==> new_[j].key == old_[j].key && new_[j].wasActive == old_[j].wasActive)
            && (forall j :: 0 <= j < |old_| && j != s.pc.at ==> new_[j] == old_[j])
            && (new_[s.pc.at].recoveredAt != old_[s.pc.at].recoveredAt ==>
                  (Required(s, old_[s.pc.at]) ==> s.pc.continuation == Scheduled))
  {
  }

  lemma WriteKeeps(s: State, delivered: bool, now: int)
    requires Inv(s)
    ensures Inv(Step(s, WriteParticipant(delivered, now)))
  {
    if s.pc.Sent? {
      var t := Step(s, WriteParticipant(delivered, now));
      WrittenAre(s, delivered, now);
      var (ps, qs) := (s.plan.value.participants, t.plan.value.participants);
      forall i | 0 <= i < |ps| ensures Required(t, qs[i]) == Required(s, ps[i]) {}
      forall x | TaskIsWanted(s, x) ensures TaskIsWanted(t, x) {
        if x != MainKey(s.requestId) {
          var i :| 0 <= i < |ps| && Required(s, ps[i]) && x == ContinuationKey(s.requestId, ps[i].key);
          assert Required(t, qs[i]) && x == ContinuationKey(t.requestId, qs[i].key);
        }
      }
    }
  }

  lemma CompleteKeeps(s: State, now: int)
    requires Inv(s)
    ensures Inv(Step(s, Complete(now)))
  {
  }

  lemma StepKeepsInv(s: State, e: Event)
    requires Inv(s)
    ensures Inv(Step(s, e))
  {
    match e
    case CheckHealth(ok) => HealthKeeps(s, ok);
    case Schedule(found, ok) => ScheduleKeeps(s, found, ok);
    case WriteParticipant(delivered, now) => WriteKeeps(s, delivered, now);
    case Complete(now) => CompleteKeeps(s, now);
    case ChooseContinuation(registered, ok) => ChooseKeeps(s, registered, ok);
    case Decide => DecideKeeps(s);
    case _ => QuietStepKeeps(s, e);
  }

  lemma {:induction false} EveryRunKeepsInv(s: State, events: seq<Event>)
    requires Inv(s)
    ensures Inv(Run(s, events))
  {
    if events != [] {
      EveryRunKeepsInv(s, events[..|events| - 1]);
      StepKeepsInv(Run(s, events[..|events| - 1]), events[|events| - 1]);
    }
  }

  // ---------- What recovery promises, over any number of crashes ----------

  predicate NoColons(ps: seq<Participant>) {
    forall i :: 0 <= i < |ps| ==> ':' !in ps[i].key.platform && ':' !in ps[i].key.bot
  }

  lemma MainKeyIsNoParticipant(requestId: string, k: Key)
    ensures MainKey(requestId) != ContinuationKey(requestId, k)
  {
  }

  // Every continuation that was ever scheduled is for a participant that needs one, at most
  // one for each; and a participant is marked recovered only once it has the one it needs.
  lemma AtMostOneContinuationEach(start: State, events: seq<Event>, i: nat)
    requires Fresh(start)
    requires var s := Run(start, events);
             OwnPlan(s) && i < |s.plan.value.participants| && NoColons(s.plan.value.participants)
    ensures var s := Run(start, events);
            var p := s.plan.value.participants[i];
            var key := ContinuationKey(s.requestId, p.key);
            && (forall a, b :: 0 <= a < b < |s.tasks| && s.tasks[a] == key ==> s.tasks[b] != key)
            && (key in s.tasks ==> Required(s, p))
            && (p.recoveredAt.Some? && Required(s, p) ==> key in s.tasks)
  {
    var s := Run(start, events);
    FreshIsInv(start);
    EveryRunKeepsInv(start, events);
    var ps := s.plan.value.participants;
    var key := ContinuationKey(s.requestId, ps[i].key);
    if key in s.tasks {
      assert TaskIsWanted(s, key);
      MainKeyIsNoParticipant(s.requestId, ps[i].key);
      var j :| 0 <= j < |ps| && Required(s, ps[j]) && key == ContinuationKey(s.requestId, ps[j].key);
      KeysAreDistinct(s.requestId, ps[i].key, ps[j].key);
      assert i == j;
    }
  }

  // The plan becomes completed only when every participant is recovered; so then exactly
  // those have a continuation that need one.
  lemma CompletedMeansHandedOver(start: State, events: seq<Event>)
    requires Fresh(start)
    requires var s := Run(start, events);
             OwnPlan(s) && s.plan.value.status == Completed && NoColons(s.plan.value.participants)
    ensures var s := Run(start, events);
            && AllRecovered(s.plan.value.participants)
            && forall i :: 0 <= i < |s.plan.value.participants| ==>
                 (ContinuationKey(s.requestId, s.plan.value.participants[i].key) in s.tasks
                  <==> Required(s, s.plan.value.participants[i]))
  {
    var s := Run(start, events);
    FreshIsInv(start);
    EveryRunKeepsInv(start, events);
    forall i | 0 <= i < |s.plan.value.participants|
      ensures ContinuationKey(s.requestId, s.plan.value.participants[i].key) in s.tasks
              <==> Required(s, s.plan.value.participants[i])
    {
      AtMostOneContinuationEach(start, events, i);
    }
  }

  // The breadcrumb of a known request goes only after a continuation was decided, and
  // when the plan is the request's own, only after that is completed.
  lemma BreadcrumbIsKeptUntilDecided(start: State, events: seq<Event>)
    requires Fresh(start)
    ensures var s := Run(start, events);
            s.record.Some? && !s.breadcrumb ==>
              && s.record.value.decided
              && (OwnPlan(s) ==> s.plan.value.status == Completed && AllRecovered(s.plan.value.participants))
  {
    FreshIsInv(start);
    EveryRunKeepsInv(start, events);
  }

  // Once recovered, a participant keeps its time of recovery, and all its results.
  lemma {:induction false} RecoveredOnce(s: State, events: seq<Event>, i: nat)
    requires Inv(s) && OwnPlan(s) && i < |s.plan.value.participants| && s.plan.value.participants[i].recoveredAt.Some?
    ensures var r := Run(s, events);
            OwnPlan(r) && i < |r.plan.value.participants| && r.plan.value.participants[i] == s.plan.value.participants[i]
  {
    if events != [] {
      RecoveredOnce(s, events[..|events| - 1], i);
      EveryRunKeepsInv(s, events[..|events| - 1]);
      RecoveredStays(Run(s, events[..|events| - 1]), events[|events| - 1], i);
    }
  }

  lemma RecoveredStays(s: State, e: Event, i: nat)
    requires Inv(s) && OwnPlan(s) && i < |s.plan.value.participants| && s.plan.value.participants[i].recoveredAt.Some?
    ensures var r := Step(s, e);
            OwnPlan(r) && i < |r.plan.value.participants| && r.plan.value.participants[i] == s.plan.value.participants[i]
  {
  }

  // A plan that was cancelled under the id of the request is never completed: no startup
  // decides anything, and the breadcrumb stays.
  lemma {:induction false} CancelledPlanKeepsBreadcrumb(start: State, events: seq<Event>)
    requires Fresh(start) && OwnPlan(start) && start.plan.value.status == Cancelled && start.record.Some?
    ensures var s := Run(start, events);
            OwnPlan(s) && s.plan.value.status == Cancelled && s.breadcrumb && s.record.Some? && !s.record.value.decided
    ensures var s := Run(start, events); !s.pc.At? && !s.pc.Sent? && !s.pc.Deciding? && !s.pc.Clearing?
  {
    if events != [] {
      CancelledPlanKeepsBreadcrumb(start, events[..|events| - 1]);
    }
  }

  // The verdict on the new process is reached once and never revised.
  lemma VerdictIsFinal(s: State, e: Event)
    requires Terminal(s)
    ensures Terminal(Step(s, e)) && IsHealthy(Step(s, e)) == IsHealthy(s)
  {
  }

  lemma RunMore(s: State, events: seq<Event>, e: Event)
    ensures Run(s, events + [e]) == Step(Run(s, events), e)
  {
  }

  // ---------- The startup code ----------

  // What the surroundings answer during one startup.
  datatype Answers = Answers(
    stale: bool, healthy: bool, found: nat -> bool, scheduled: nat -> bool, delivered: nat -> bool,
    registered: bool, requesterScheduled: bool)

  ghost predicate AllGood(a: Answers) {
    a.requesterScheduled && forall i: nat :: a.found(i) && a.scheduled(i) && a.delivered(i)
  }

  class Startup {
    const requestId: string
    var plan: Option<Plan>
    var breadcrumb: bool
    var record: Option<Record>
    var tasks: seq<string>
    ghost var pc: Pc
    ghost const origin: State
    ghost var trace: seq<Event>

    ghost function View(): State
      reads this
    {
      State(requestId, plan, breadcrumb, record, tasks, pc)
    }

    ghost predicate Valid()
      reads this
    {
      Fresh(origin) && View() == Run(origin, trace)
    }

    constructor (origin: State)
      requires Fresh(origin)
      ensures Valid() && View() == origin && trace == []
    {
      requestId, plan, breadcrumb, record, tasks, pc :=
        origin.requestId, origin.plan, origin.breadcrumb, origin.record, origin.tasks, origin.pc;
      this.origin, trace := origin, [];
    }

    lemma Holds()
      requires Valid()
      ensures Inv(View())
    {
      FreshIsInv(origin);
      EveryRunKeepsInv(origin, trace);
    }

    // The durable fields already are what the step makes of `before`.
    ghost method Take(e: Event, before: State)
      requires Fresh(origin) && before == Run(origin, trace)
      requires View().(pc := Down) == Step(before, e).(pc := Down)
      modifies `pc, `trace
      ensures Valid() && View() == Step(before, e)
    {
      RunMore(origin, trace, e);
      trace := trace + [e];
      pc := Step(before, e).pc;
    }

    // Either persists the task or throws; a key that is there is not scheduled again.
    method ScheduleTaskDurably(key: string, ok: bool) returns (done: bool)
      modifies `tasks
      ensures done == ok && tasks == if ok then Scheduling(old(tasks), key) else old(tasks)
    {
      if ok && key !in tasks {
        tasks := tasks + [key];
      }
      done := ok;
    }

    method CheckStartupHealth(ok: bool)
      requires Valid() && pc == Started && record.Some?
      modifies `record, `pc, `trace
      ensures Valid() && View() == HealthStep(old(View()), ok)
    {
      ghost var before := View();
      if record.value.status == Claimed {
        record := Some(record.value.(status := Failed));
      } else if record.value.status == Restarting {
        record := Some(record.value.(status := if ok then Healthy else Failed));
      }
      Take(CheckHealth(ok), before);
    }

    method ScheduleContinuation(i: nat, found: bool, ok: bool) returns (continuation: Continuation)
      requires Valid() && pc == At(i) && plan.Some? && i < |plan.value.participants| && record.Some?
      requires plan.value.participants[i].recoveredAt.None?
      modifies `tasks, `pc, `trace
      ensures Valid() && View() == ScheduleStep(old(View()), i, found, ok) && pc == Sent(i, found, continuation)
      ensures found && ok && Required(View(), plan.value.participants[i]) ==> continuation == Scheduled
    {
      ghost var before := View();
      var p := plan.value.participants[i];
      var healthy := record.value.status == Healthy;
      continuation := Unneeded;
      if !found {
        continuation := Broken;
      } else if healthy && plan.value.resume && p.wasActive && !IsInternalChat(p.key.chat) {
        var done := ScheduleTaskDurably(ContinuationKey(requestId, p.key), ok);
        continuation := if done then Scheduled else Broken;
      } else if !healthy && p.wasActive {
        continuation := Broken;
      }
      Take(Schedule(found, ok), before);
    }

    method WriteResult(i: nat, found: bool, continuation: Continuation, delivered: bool, now: int)
      requires Valid() && pc == Sent(i, found, continuation) && plan.Some? && i < |plan.value.participants| && record.Some?
      modifies `plan, `pc, `trace
      ensures Valid() && View() == WriteStep(old(View()), delivered, now)
    {
      ghost var before := View();
      var p := plan.value.participants[i];
      var required := record.value.status == Healthy && plan.value.resume && p.wasActive && !IsInternalChat(p.key.chat);
      var notice := CompletionNotice(p, found, delivered);
      var recovered := found && (!required || continuation == Scheduled) && (!p.sendCards || notice == Delivered);
      var ps := plan.value.participants;
      ps := seq(|ps|, j requires 0 <= j < |ps| =>
        if ps[j].key != p.key then ps[j]
        else ps[j].(completionNotice := Some(notice), continuation := Some(continuation),
                    recoveredAt := if recovered then Some(now) else ps[j].recoveredAt));
      assert ps == HandledAll(before, i, found, continuation, delivered, now);
      plan := Some(plan.value.(participants := ps, updatedAt := now));
      Take(WriteParticipant(delivered, now), before);
    }

    // One turn of the loop over the participants.
    method RecoverParticipant(i: nat, found: bool, ok: bool, delivered: bool, now: int)
      requires Valid() && pc == At(i) && OwnPlan(View()) && i < |plan.value.participants|
      modifies `plan, `tasks, `pc, `trace
      ensures Valid() && pc == At(i + 1) && OwnPlan(View())
      ensures |plan.value.participants| == |old(plan).value.participants| && plan.value.status == old(plan).value.status
      ensures forall j :: 0 <= j < |plan.value.participants| && j != i ==>
                plan.value.participants[j] == old(plan).value.participants[j]
      ensures found && ok && delivered ==> plan.value.participants[i].recoveredAt.Some?
    {
      Holds();
      if plan.value.participants[i].recoveredAt.Some? {
        Take(Skip, View());
        return;
      }
      var continuation := ScheduleContinuation(i, found, ok);
      Holds();
      WrittenAre(View(), delivered, now);
      WriteResult(i, found, continuation, delivered, now);
    }

    method RecoverParticipants(a: Answers, now: int)
      requires Valid() && pc == Ready
      modifies `plan, `tasks, `pc, `trace
      ensures Valid() && pc == Recovered
      ensures OwnPlan(View()) <==> OwnPlan(old(View()))
      ensures OwnPlan(View()) && old(plan).value.status == Cancelled ==> plan.value.status == Cancelled
      ensures AllGood(a) && OwnPlan(View()) && old(plan).value.status != Cancelled ==> plan.value.status == Completed
    {
      ghost var before := View();
      if plan.None? || plan.value.requestId != requestId
         || plan.value.status == Cancelled || plan.value.status == Completed {
        Take(ReadPlan, before);
        return;
      }
      Take(ReadPlan, before);
      var i := 0;
      while i < |plan.value.participants|
        invariant Valid() && OwnPlan(View()) && 0 <= i <= |plan.value.participants| && pc == At(i)
        invariant plan.value.status == before.plan.value.status
        invariant AllGood(a) ==> forall j :: 0 <= j < i ==> plan.value.participants[j].recoveredAt.Some?
        decreases |plan.value.participants| - i
      {
        RecoverParticipant(i, a.found(i), a.scheduled(i), a.delivered(i), now);
        i := i + 1;
      }
      before := View();
      if forall j :: 0 <= j < |plan.value.participants| ==> plan.value.participants[j].recoveredAt.Some? {
        plan := Some(plan.value.(status := Completed, updatedAt := now));
      }
      Take(Complete(now), before);
    }

    // Whether a continuation can be decided now; schedules the requester's, if it needs one.
    method DecideContinuation(a: Answers) returns (decided: bool)
      requires Valid() && pc == Recovered && record.Some?
      modifies `tasks, `pc, `trace
      ensures Valid() && pc == if decided then Deciding else Ended
      ensures decided <==>
                (if OwnPlan(View()) then plan.value.status == Completed
                 else a.requesterScheduled || !NeedsRequesterTask(old(View()), a.registered))
    {
      ghost var before := View();
      decided := true;
      if plan.Some? && plan.value.requestId == requestId {
        decided := plan.value.status == Completed;
      } else if !record.value.decided && record.value.status == Healthy && record.value.resume
                && record.value.requesterBot.Some? && record.value.requesterChat.Some?
                && !IsInternalOwner(record.value.requesterChat.value) && a.registered {
        decided := ScheduleTaskDurably(MainKey(requestId), a.requesterScheduled);
      }
      Take(ChooseContinuation(a.registered, a.requesterScheduled), before);
    }

    method RecordDecision()
      requires Valid() && pc == Deciding && record.Some?
      modifies `record, `pc, `trace
      ensures Valid() && pc == Clearing && record == Some(old(record).value.(decided := true))
    {
      ghost var before := View();
      record := Some(record.value.(decided := true));
      Take(Decide, before);
    }

    method DecideAndClear(a: Answers) returns (decided: bool)
      requires Valid() && pc == Recovered && record.Some?
      modifies `tasks, `record, `breadcrumb, `pc, `trace
      ensures Valid() && pc == Ended && (breadcrumb ==> old(breadcrumb))
      ensures (if OwnPlan(old(View())) then plan.value.status == Completed else a.requesterScheduled) ==> !breadcrumb
    {
      decided := DecideContinuation(a);
      if decided {
        RecordDecision();
        ghost var before := View();
        breadcrumb := false;
        Take(Clear, before);
      }
    }

    // One whole startup that no crash cuts short. The breadcrumb of a known request is gone
    // afterwards if all answers are good, unless the request's own plan was cancelled.
    method FinalizeControlledRestart(a: Answers, now: int)
      requires Valid() && pc == Down
      modifies this
      ensures Valid() && pc == Ended
      ensures breadcrumb ==> old(breadcrumb)
      ensures AllGood(a) && !(OwnPlan(old(View())) && old(plan).value.status == Cancelled) ==> !breadcrumb
    {
      ghost var before := View();
      if !breadcrumb || record.None? || (a.stale && record.value.decided) {
        breadcrumb := false;
        Take(Boot(a.stale), before);
        return;
      }
      Take(Boot(a.stale), before);
      CheckStartupHealth(a.healthy);
      RecoverParticipants(a, now);
      Holds();
      var _ := DecideAndClear(a);
    }
  }
}
