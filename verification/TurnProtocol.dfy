/**
 The turn protocol of one chat: who owns the chat, what waits behind it, and what
 every synchronous block of the bridge does to both.

 Chats share nothing but the restart quiesce flag, so a run of the bridge is, seen
 from one chat, a sequence of the events below in any order. The imperative bridge in
 MessageBridge.dfy is proved to take exactly these steps.
 */
module TurnProtocol {
  import opened Common

  type MessageId = nat

  // An incoming message, or several that were merged into one.
  type Message = seq<MessageId>

  type RequestId = string

  const MAX_QUEUE_SIZE := 5

  // Where the asynchronous call that executes a turn is suspended.
  datatype Phase =
    | Setup      // reserved, not yet registered as running
    | Aborting   // left before registration; its reservation is not yet released
    | Running    // was registered as the running task
    | Finishing  // its own cleanup is done; the outer cleanup is not
    | Done

  // A task object. Its index in `turns` stands for its identity.
  datatype Turn = Turn(phase: Phase, cancelled: bool, work: Message)

  // What became of every message offered to the chat.
  datatype Ledger = Ledger(
    offered: multiset<MessageId>,
    begun: multiset<MessageId>,
    refused: multiset<MessageId>,
    cleared: multiset<MessageId>,
    queued: seq<Message>,  // everything ever queued, in acceptance order
    left: seq<Message>)    // everything that left the queue, in the order it left

  datatype State = State(
    turns: seq<Turn>,
    starting: Option<nat>,
    running: Option<nat>,
    queue: seq<Message>,
    batch: Message,
    quiesce: Option<RequestId>,
    ledger: Ledger)

  const INITIAL_LEDGER := Ledger(multiset{}, multiset{}, multiset{}, multiset{}, [], [])
  const INITIAL := State([], None, None, [], [], None, INITIAL_LEDGER)

  datatype Event =
    | Deliver(id: MessageId, media: bool)
    | FlushBatch
    | StartCommand(id: MessageId)
    | StartApiTask
    | EndSetup(turn: nat, ready: bool)
    | Release(turn: nat)
    | Finish(turn: nat)
    | StopCommand
    | StopChatTask
    | BeginQuiesce(request: RequestId)
    | CancelQuiesce(request: RequestId)

  // ---------- The synchronous blocks ----------

  predicate Busy(s: State) {
    s.starting.Some? || s.running.Some?
  }

  function Reserve(s: State, work: Message): Option<State> {
    if s.quiesce.Some? || Busy(s) then None
    else Some(s.(turns := s.turns + [Turn(Setup, false, work)], starting := Some(|s.turns|)))
  }

  // A refused reservation makes `startQuery` throw, and the message is gone.
  function StartQuery(s: State, m: Message): State {
    match Reserve(s, m)
    case Some(r) => r.(ledger := s.ledger.(begun := s.ledger.begun + multiset(m)))
    case None => s.(ledger := s.ledger.(refused := s.ledger.refused + multiset(m)))
  }

  function ProcessQueue(s: State): State {
    if s.quiesce.Some? || s.queue == [] then s
    else StartQuery(
           s.(queue := s.queue[1..], ledger := s.ledger.(left := s.ledger.left + [s.queue[0]])),
           s.queue[0])
  }

  function Enqueue(s: State, m: Message): State {
    if |s.queue| >= MAX_QUEUE_SIZE
    then s.(ledger := s.ledger.(refused := s.ledger.refused + multiset(m)))
    else s.(queue := s.queue + [m], ledger := s.ledger.(queued := s.ledger.queued + [m]))
  }

  function Offer(s: State, id: MessageId): State {
    s.(ledger := s.ledger.(offered := s.ledger.offered + multiset{id}))
  }

  function DeliverMessage(s: State, id: MessageId, media: bool): State {
    var o := Offer(s, id);
    if media && (o.batch != [] || !Busy(o)) then o.(batch := o.batch + [id])
    else if Busy(o) then Enqueue(o.(batch := []), o.batch + [id])
    else StartQuery(o.(batch := []), o.batch + [id])
  }

  function Flush(s: State): State {
    if s.batch == [] then s
    else if Busy(s) then Enqueue(s.(batch := []), s.batch)
    else StartQuery(s.(batch := []), s.batch)
  }

  function Command(s: State, id: MessageId): State {
    var o := Offer(s, id);
    if Busy(o) then o.(ledger := o.ledger.(refused := o.ledger.refused + multiset{id}))
    else StartQuery(o, [id])
  }

  function SetPhase(s: State, t: nat, p: Phase): State
    requires t < |s.turns|
  {
    s.(turns := s.turns[t := s.turns[t].(phase := p)])
  }

  function Cancel(s: State, t: nat): State
    requires t < |s.turns|
  {
    s.(turns := s.turns[t := s.turns[t].(cancelled := true)])
  }

  predicate InPhase(s: State, t: nat, phases: set<Phase>) {
    t < |s.turns| && s.turns[t].phase in phases
  }

  predicate StartActive(s: State, t: nat)
    requires t < |s.turns|
  {
    !s.turns[t].cancelled && s.starting == Some(t)
  }

  // The block after the last await of the setup: register, or leave.
  function LeaveSetup(s: State, t: nat, ready: bool): State
    requires t < |s.turns|
  {
    if ready && StartActive(s, t)
    then SetPhase(s, t, Running).(starting := None, running := Some(t))
    else SetPhase(s, t, Aborting)
  }

  // The `finally` of the outer call.
  function ReleaseStart(s: State, t: nat): State
    requires t < |s.turns|
  {
    var d := SetPhase(s, t, Done);
    if s.starting == Some(t) then ProcessQueue(d.(starting := None)) else d
  }

  // The `finally` of the turn itself.
  function FinishTurn(s: State, t: nat): State
    requires t < |s.turns|
  {
    var d := SetPhase(s, t, Finishing);
    if s.running == Some(t) then ProcessQueue(d.(running := None)) else d
  }

  function StopTask(s: State): State {
    match s.starting
    case Some(t) => (if t < |s.turns| then Cancel(s, t) else s).(starting := None)
    case None =>
      match s.running
      case Some(t) => (if t < |s.turns| then Cancel(s, t) else s).(running := None)
      case None => s
  }

  function ClearQueue(s: State): State {
    s.(queue := [],
       ledger := s.ledger.(left := s.ledger.left + s.queue,
                           cleared := s.ledger.cleared + Flat(s.queue)))
  }

  function Resume(s: State): State {
    if Busy(s) then s else ProcessQueue(s)
  }

  function ReleaseQuiesce(s: State, r: RequestId): State {
    if s.quiesce != Some(r) then s
    else Resume(s.(quiesce := None))
  }

  function Step(s: State, e: Event): State {
    match e
    case Deliver(id, media) => DeliverMessage(s, id, media)
    case FlushBatch => Flush(s)
    case StartCommand(id) => Command(s, id)
    case StartApiTask => Reserve(s, []).GetOr(s)
    case EndSetup(t, ready) => if InPhase(s, t, {Setup}) then LeaveSetup(s, t, ready) else s
    case Release(t) => if InPhase(s, t, {Aborting, Finishing}) then ReleaseStart(s, t) else s
    case Finish(t) => if InPhase(s, t, {Running}) then FinishTurn(s, t) else s
    case StopCommand => StopTask(ClearQueue(s))
    case StopChatTask => StopTask(s)
    case BeginQuiesce(r) => s.(quiesce := Some(r))
    case CancelQuiesce(r) => ReleaseQuiesce(s, r)
  }

  function Run(s: State, events: seq<Event>): State {
    if events == [] then s else Step(Run(s, events[..|events| - 1]), events[|events| - 1])
  }

  lemma RunExtend(s: State, events: seq<Event>, e: Event)
    ensures Run(s, events + [e]) == Step(Run(s, events), e)
  {
  }

  // The message ids in a sequence of messages.
  function Flat(ms: seq<Message>): multiset<MessageId> {
    if ms == [] then multiset{} else multiset(ms[0]) + Flat(ms[1..])
  }

  lemma {:induction false} FlatAppend(a: seq<Message>, m: Message)
    ensures Flat(a + [m]) == Flat(a) + multiset(m)
  {
    if a == [] {
      assert a + [m] == [m];
    } else {
      assert (a + [m])[1..] == a[1..] + [m];
      FlatAppend(a[1..], m);
    }
  }

  // ---------- Invariants ----------

  predicate Owner(s: State, t: nat) {
    s.starting == Some(t) || s.running == Some(t)
  }

  predicate HoldsStart(turn: Turn) {
    turn.phase in {Setup, Aborting} && !turn.cancelled
  }

  predicate HoldsRun(turn: Turn) {
    turn.phase == Running && !turn.cancelled
  }

  // Only the latest turn of a chat can own it, and it does exactly while it is
  // uncancelled and still in the phase of the map that holds it.
  ghost predicate Ownership(s: State) {
    var last := |s.turns| - 1;
    && (forall t :: 0 <= t < last ==> !HoldsStart(s.turns[t]) && !HoldsRun(s.turns[t]))
    && s.starting == (if last >= 0 && HoldsStart(s.turns[last]) then Some(last) else None)
    && s.running == (if last >= 0 && HoldsRun(s.turns[last]) then Some(last) else None)
  }

  ghost predicate Bounded(s: State) {
    |s.queue| <= MAX_QUEUE_SIZE
  }

  // First in, first out: what was queued is what left, in the same order, and what waits.
  ghost predicate Fifo(s: State) {
    s.ledger.queued == s.ledger.left + s.queue
  }

  // Every offered message waits, was begun, was refused or was cleared; once.
  ghost predicate Conserved(s: State) {
    forall id :: s.ledger.offered[id] == Places(s, id)
  }

  // How many times the chat holds or has settled the message `id`.
  ghost function Places(s: State, id: MessageId): int {
    multiset(s.batch)[id] + Flat(s.queue)[id]
    + s.ledger.begun[id] + s.ledger.refused[id] + s.ledger.cleared[id]
  }

  ghost predicate Inv(s: State) {
    Ownership(s) && Bounded(s) && Fifo(s) && Conserved(s)
  }

  // A chat with queued messages is busy, or a restart holds it back.
  predicate NotStranded(s: State) {
    s.queue != [] ==> s.quiesce.Some? || Busy(s)
  }

  // ---------- One block keeps the invariants ----------

  lemma ReserveKeepsOwnership(s: State, work: Message)
    requires Ownership(s)
    ensures Reserve(s, work).Some? ==> Ownership(Reserve(s, work).value)
  {
  }

  lemma ProcessQueueConserves(s: State)
    requires Conserved(s)
    ensures Conserved(ProcessQueue(s))
  {
  }

  lemma ProcessQueueKeeps(s: State)
    requires Inv(s)
    ensures Inv(ProcessQueue(s))
  {
    ProcessQueueConserves(s);
    if s.quiesce.None? && s.queue != [] {
      var m := s.queue[0];
      var d := s.(queue := s.queue[1..], ledger := s.ledger.(left := s.ledger.left + [m]));
      ReserveKeepsOwnership(d, m);
      assert s.queue == [m] + s.queue[1..];
    }
  }

  // A message that waits nowhere yet.
  ghost predicate ConservedWith(s: State, m: Message) {
    forall id :: s.ledger.offered[id] == Places(s, id) + multiset(m)[id]
  }

  lemma AcceptConserves(s: State, m: Message)
    requires ConservedWith(s, m)
    ensures Conserved(StartQuery(s, m)) && Conserved(Enqueue(s, m))
  {
    assert Conserved(Enqueue(s, m)) by {
      FlatAppend(s.queue, m);
    }
  }

  // Starting or queueing such a message keeps the invariants.
  lemma AcceptKeeps(s: State, m: Message)
    requires Ownership(s) && Bounded(s) && Fifo(s) && ConservedWith(s, m)
    ensures Inv(StartQuery(s, m)) && Inv(Enqueue(s, m))
  {
    ReserveKeepsOwnership(s, m);
    AcceptConserves(s, m);
  }

  lemma OfferConserves(s: State, id: MessageId)
    requires Conserved(s)
    ensures ConservedWith(Offer(s, id), [id])
    ensures ConservedWith(Offer(s, id).(batch := []), s.batch + [id])
  {
  }

  lemma DeliverKeeps(s: State, id: MessageId, media: bool)
    requires Inv(s)
    ensures Inv(DeliverMessage(s, id, media))
  {
    var o := Offer(s, id);
    OfferConserves(s, id);
    if !(media && (o.batch != [] || !Busy(o))) {
      AcceptKeeps(o.(batch := []), o.batch + [id]);
    }
  }

  lemma CommandKeeps(s: State, id: MessageId)
    requires Inv(s)
    ensures Inv(Command(s, id))
  {
    OfferConserves(s, id);
    if !Busy(s) {
      AcceptKeeps(Offer(s, id), [id]);
    }
  }

  // Turns only leave their phase or are cancelled; the maps follow.
  lemma TurnBlocksKeep(s: State, t: nat, ready: bool)
    requires Inv(s) && t < |s.turns|
    ensures s.turns[t].phase == Setup ==> Inv(LeaveSetup(s, t, ready))
    ensures s.turns[t].phase in {Aborting, Finishing} ==> Inv(ReleaseStart(s, t))
    ensures s.turns[t].phase == Running ==> Inv(FinishTurn(s, t))
  {
    if s.turns[t].phase in {Aborting, Finishing} && s.starting == Some(t) {
      ProcessQueueKeeps(SetPhase(s, t, Done).(starting := None));
    }
    if s.turns[t].phase == Running && s.running == Some(t) {
      ProcessQueueKeeps(SetPhase(s, t, Finishing).(running := None));
    }
  }

  lemma StopKeeps(s: State)
    requires Inv(s)
    ensures Inv(StopTask(s)) && Inv(ClearQueue(s))
  {
  }

  lemma StepKeepsInv(s: State, e: Event)
    requires Inv(s)
    ensures Inv(Step(s, e))
  {
    match e
    case Deliver(id, media) => DeliverKeeps(s, id, media);
    case FlushBatch =>
      if s.batch != [] {
        AcceptKeeps(s.(batch := []), s.batch);
      }
    case StartCommand(id) => CommandKeeps(s, id);
    case StartApiTask => ReserveKeepsOwnership(s, []);
    case BeginQuiesce(r) =>
    case CancelQuiesce(r) => ProcessQueueKeeps(s.(quiesce := None));
    case EndSetup(t, ready) =>
      if t < |s.turns| {
        TurnBlocksKeep(s, t, ready);
      }
    case Release(t) =>
      if t < |s.turns| {
        TurnBlocksKeep(s, t, false);
      }
    case Finish(t) =>
      if t < |s.turns| {
        TurnBlocksKeep(s, t, false);
      }
    case StopCommand =>
      StopKeeps(s);
      StopKeeps(ClearQueue(s));
    case StopChatTask => StopKeeps(s);
  }

  lemma {:induction false} RunKeepsInv(s: State, events: seq<Event>)
    requires Inv(s)
    ensures Inv(Run(s, events))
  {
    if events != [] {
      RunKeepsInv(s, events[..|events| - 1]);
      StepKeepsInv(Run(s, events[..|events| - 1]), events[|events| - 1]);
    }
  }

  // From a fresh chat, after any interleaving of any events whatever.
  lemma EveryRunKeepsInv(events: seq<Event>)
    ensures Inv(Run(INITIAL, events))
  {
    RunKeepsInv(INITIAL, events);
  }

  // ---------- Progress: no stranded queue ----------

  // `stopChatTask` leaves the queue alone; every other stop clears it first.
  predicate StrandsNothing(s: State, e: Event) {
    e.StopChatTask? ==> s.queue == []
  }

  predicate CleanRun(s: State, events: seq<Event>) {
    events == []
    || (CleanRun(s, events[..|events| - 1])
        && StrandsNothing(Run(s, events[..|events| - 1]), events[|events| - 1]))
  }

  lemma StepKeepsNotStranded(s: State, e: Event)
    requires Inv(s) && NotStranded(s) && StrandsNothing(s, e)
    ensures NotStranded(Step(s, e))
  {
  }

  lemma {:induction false} NeverStranded(events: seq<Event>)
    requires CleanRun(INITIAL, events)
    ensures NotStranded(Run(INITIAL, events))
  {
    if events != [] {
      var before := events[..|events| - 1];
      NeverStranded(before);
      EveryRunKeepsInv(before);
      StepKeepsNotStranded(Run(INITIAL, before), events[|events| - 1]);
    }
  }

  // Exactly when `stopChatTask` keeps the promise.
  lemma StopChatTaskStrandsIff(s: State)
    requires Inv(s) && NotStranded(s)
    ensures NotStranded(Step(s, StopChatTask)) <==> s.queue == [] || s.quiesce.Some?
  {
  }

  // It does strand a queue: a text starts, a second one queues, the task is stopped.
  lemma StopChatTaskCanStrand()
    ensures !NotStranded(Run(INITIAL, [Deliver(1, false), Deliver(2, false), StopChatTask]))
  {
    var events := [Deliver(1, false), Deliver(2, false), StopChatTask];
    var one := Step(INITIAL, events[0]);
    assert one == DeliverMessage(INITIAL, 1, false) && one.starting == Some(0);
    var two := Step(one, events[1]);
    assert two == DeliverMessage(one, 2, false);
    assert events[..2] == [events[0], events[1]] && events[..2][..1] == [events[0]];
    assert Run(INITIAL, [events[0]]) == one;
    assert Run(INITIAL, events[..2]) == two;
    assert |two.queue| == 1;
  }

  // ---------- Handing the chat over ----------

  // When the owner of a chat ends, the oldest queued message is started in the same
  // block: it obtains the reservation as the next turn, and nothing is refused.
  lemma HandOver(s: State, e: Event)
    requires Inv(s) && s.quiesce.None? && s.queue != []
    requires || (e.Release? && s.starting == Some(e.turn) && s.turns[e.turn].phase == Aborting)
             || (e.Finish? && s.running == Some(e.turn))
    ensures var n := Step(s, e);
            && n.starting == Some(|s.turns|) && n.turns[|s.turns|] == Turn(Setup, false, s.queue[0])
            && n.queue == s.queue[1..]
            && n.ledger.begun == s.ledger.begun + multiset(s.queue[0])
            && n.ledger.refused == s.ledger.refused
  {
  }

  // The block took nothing off the queue, or cleared it for a stop command, or took the
  // oldest message off and made it the work of the turn that now starts.
  ghost predicate QueueOnlyFeedsTurns(s: State, n: State, cleared: bool) {
    || n.ledger.left == s.ledger.left
    || (cleared && n.queue == [] && n.ledger.left == s.ledger.left + s.queue)
    || (&& s.queue != [] && n.queue == s.queue[1..]
        && n.ledger.left == s.ledger.left + [s.queue[0]]
        && n.starting == Some(|s.turns|)
        && |n.turns| == |s.turns| + 1 && n.turns[|s.turns|].work == s.queue[0]
        && n.ledger.refused == s.ledger.refused)
  }

  lemma ProcessQueueFeeds(s: State, d: State)
    requires d.queue == s.queue && d.ledger == s.ledger && |d.turns| == |s.turns| && !Busy(d)
    ensures QueueOnlyFeedsTurns(s, ProcessQueue(d), false)
  {
  }

  // Over every block: a message that leaves the queue was begun by that very block, as
  // the new owner, or a stop command cleared it. No reservation is ever refused to it.
  lemma LeavesQueueOnlyToRun(s: State, e: Event)
    requires Inv(s)
    ensures QueueOnlyFeedsTurns(s, Step(s, e), e.StopCommand?)
  {
    match e
    case Release(t) =>
      if InPhase(s, t, {Aborting, Finishing}) && s.starting == Some(t) {
        ProcessQueueFeeds(s, SetPhase(s, t, Done).(starting := None));
      }
    case Finish(t) =>
      if InPhase(s, t, {Running}) && s.running == Some(t) {
        ProcessQueueFeeds(s, SetPhase(s, t, Finishing).(running := None));
      }
    case CancelQuiesce(r) =>
      if s.quiesce == Some(r) && !Busy(s) {
        ProcessQueueFeeds(s, s.(quiesce := None));
      }
    case _ =>
  }

  // ---------- Ownership, stated point by point ----------

  lemma OwnershipMeans(s: State, t: nat)
    requires Inv(s)
    ensures !(s.starting.Some? && s.running.Some?)
    ensures s.starting == Some(t) <==> t < |s.turns| && HoldsStart(s.turns[t])
    ensures s.running == Some(t) <==> t < |s.turns| && HoldsRun(s.turns[t])
    ensures Owner(s, t) ==> t + 1 == |s.turns| && !s.turns[t].cancelled
  {
  }

  // Whatever a turn that no longer owns the chat still does, however late, touches
  // nothing but its own record: no map entry, no queue, no other turn.
  lemma LateTurnIsHarmless(s: State, t: nat, ready: bool)
    requires Inv(s) && t < |s.turns| && !Owner(s, t)
    ensures forall e :: e in {EndSetup(t, ready), Release(t), Finish(t)} ==>
              Step(s, e) == s.(turns := s.turns[t := s.turns[t].(phase := Step(s, e).turns[t].phase)])
  {
  }

  // A turn once cancelled stays cancelled, and an ended turn stays ended.
  lemma TurnsOnlyAge(s: State, e: Event, t: nat)
    requires Inv(s) && t < |s.turns|
    ensures var n := Step(s, e);
            && t < |n.turns| && n.turns[t].work == s.turns[t].work
            && (s.turns[t].cancelled ==> n.turns[t].cancelled)
            && (s.turns[t].phase == Done ==> n.turns[t].phase == Done)
            && (s.turns[t].phase in {Finishing, Running} ==> n.turns[t].phase != Setup)
  {
  }

  // ---------- Restart quiesce ----------

  // While a restart holds the chat, nothing new starts: a busy chat was busy before.
  lemma {:induction false} QuiescedChatsOnlyDrain(s: State, events: seq<Event>)
    requires s.quiesce.Some?
    requires forall e :: e in events ==> !e.CancelQuiesce?
    ensures Run(s, events).quiesce.Some?
    ensures Busy(Run(s, events)) ==> Busy(s)
  {
    if events != [] {
      QuiescedChatsOnlyDrain(s, events[..|events| - 1]);
      assert events[|events| - 1] in events;
    }
  }
}
