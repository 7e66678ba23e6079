/**
 Questions that an agent asks its user. Each call has one or more questions, which are
 answered one by one or, when a timer fires, by default. The stream never brings up a call
 again that it brought up before.

 Inside a turn several calls wait in line; between turns a chat has a single slot.
 */
module QuestionProtocol {
  import opened Common

  datatype Call = Call(id: nat, questions: seq<string>)

  datatype Pending = Pending(call: Call, index: nat, answers: map<string, string>)

  // What is handed to the agent.
  datatype Resolution = Resolution(call: Call, answers: map<string, string>)

  const NO_REPLY := "The user did not reply in time; decide for yourself and go on."

  // Every question of the call is answered.
  predicate Complete(r: Resolution) {
    forall i :: 0 <= i < |r.call.questions| ==> r.call.questions[i] in r.answers
  }

  predicate Answered(p: Pending) {
    p.index <= |p.call.questions| && forall i :: 0 <= i < p.index ==> p.call.questions[i] in p.answers
  }

  // An empty answer counts as none.
  function FillFrom(questions: seq<string>, i: nat, answers: map<string, string>): map<string, string>
    requires i <= |questions|
    decreases |questions| - i
  {
    if i == |questions| then answers
    else
      var q := questions[i];
      FillFrom(questions, i + 1, if q in answers && answers[q] != "" then answers else answers[q := NO_REPLY])
  }

  lemma {:induction false} FillAnswersAll(questions: seq<string>, i: nat, answers: map<string, string>)
    requires i <= |questions|
    ensures var filled := FillFrom(questions, i, answers);
            && (forall j :: i <= j < |questions| ==> questions[j] in filled)
            && (forall q :: q in answers ==> q in filled && (answers[q] != "" ==> filled[q] == answers[q]))
    decreases |questions| - i
  {
    if i < |questions| {
      var q := questions[i];
      FillAnswersAll(questions, i + 1, if q in answers && answers[q] != "" then answers else answers[q := NO_REPLY]);
    }
  }

  function Filled(p: Pending): Resolution {
    Resolution(p.call, FillFrom(p.call.questions, Min(p.index, |p.call.questions|), p.answers))
  }

  lemma FilledIsComplete(p: Pending)
    requires Answered(p)
    ensures Complete(Filled(p))
  {
    FillAnswersAll(p.call.questions, p.index, p.answers);
  }

  predicate DistinctCalls(rs: seq<Resolution>) {
    forall i, j :: 0 <= i < j < |rs| ==> rs[i].call.id != rs[j].call.id
  }

  // ---------- Inside a turn ----------

  // `committed` resolutions wait for the card to be updated before they are handed over.
  // `arming`: the stream is about to arm the timer. `leaked` timers are armed but forgotten.
  // `closed`: no reply and no stream message gets in any more; `ended`: the turn's `finally`
  // has run.
  datatype Turn = Turn(
    queue: seq<Call>, pending: Option<Pending>, committed: seq<Resolution>, resolved: seq<Resolution>,
    seen: set<nat>, timer: bool, leaked: nat, arming: bool, closed: bool, ended: bool)

  datatype Event =
    | Stream(call: Option<Call>)
    | Arm
    | FailToArm
    | Reply(answer: string)
    | HandOver(i: nat)
    | Lose(i: nat)
    | Fire
    | FireLeaked
    | Stop
    | End

  function NewPending(c: Call): Pending {
    Pending(c, 0, map[])
  }

  // The head of the line is surfaced unless it already is.
  function Surface(t: Turn): Turn {
    if t.queue == [] then (if t.pending.None? then t.(timer := false) else t)
    else
      t.(arming := true,
         pending := if t.pending.Some? && t.pending.value.call.id == t.queue[0].id then t.pending
                    else Some(NewPending(t.queue[0])))
  }

  // Takes the pending call off the line; what it was answered is kept.
  function TakeOff(t: Turn): Turn {
    t.(pending := None, queue := if t.queue == [] then [] else t.queue[1..])
  }

  function ReplyStep(t: Turn, answer: string): Turn {
    if t.pending.None? then t
    else
      var p := t.pending.value;
      if p.index >= |p.call.questions| then t
      else
        var answers := p.answers[p.call.questions[p.index] := answer];
        if p.index + 1 < |p.call.questions| then t.(pending := Some(Pending(p.call, p.index + 1, answers)), timer := true)
        else TakeOff(t).(committed := t.committed + [Resolution(p.call, answers)], timer := false)
  }

  function TimeoutStep(t: Turn): Turn {
    if t.pending.None? then t
    else TakeOff(t).(resolved := t.resolved + [Filled(t.pending.value)])
  }

  // The rest of the answer handler: hand over, then bring up the next call of the line.
  function HandOverStep(t: Turn, i: nat): Turn
    requires i < |t.committed|
  {
    var d := t.(resolved := t.resolved + [t.committed[i]], committed := t.committed[..i] + t.committed[i + 1..]);
    if d.queue == [] then d
    else d.(pending := Some(NewPending(d.queue[0])), leaked := d.leaked + (if d.timer then 1 else 0), timer := true)
  }

  function Step(t: Turn, e: Event): Turn {
    match e
    case Stream(call) =>
      if t.closed || t.arming || (call.Some? && call.value.id in t.seen) then t
      else if call.Some? then Surface(t.(queue := t.queue + [call.value], seen := t.seen + {call.value.id}))
      else Surface(t)
    case Arm => if t.arming then t.(arming := false, timer := true) else t
    case FailToArm => t.(arming := false)
    case Reply(answer) => if t.closed then t else ReplyStep(t, answer)
    case HandOver(i) => if i < |t.committed| then HandOverStep(t, i) else t
    case Lose(i) => if i < |t.committed| then t.(committed := t.committed[..i] + t.committed[i + 1..]) else t
    case Fire => if t.timer then TimeoutStep(t.(timer := false)) else t
    case FireLeaked => if t.leaked > 0 then TimeoutStep(t.(leaked := t.leaked - 1)) else t
    case Stop => t.(closed := true, timer := false)
    case End => if t.arming || t.ended then t else t.(closed := true, timer := false, ended := true)
  }

  const NEW_TURN := Turn([], None, [], [], {}, false, 0, false, false, false)

  function Run(t: Turn, events: seq<Event>): Turn {
    if events == [] then t else Step(Run(t, events[..|events| - 1]), events[|events| - 1])
  }

  // ---------- At most once, and completely answered ----------

  // Where the calls of a turn are: still in line, on their way, or handed over.
  ghost predicate Inv(t: Turn) {
    && (t.ended ==> t.closed && !t.arming)
    && (forall i, j :: 0 <= i < j < |t.queue| ==> t.queue[i].id != t.queue[j].id)
    && DistinctCalls(t.committed) && DistinctCalls(t.resolved)
    && (forall i :: 0 <= i < |t.queue| ==> t.queue[i].id in t.seen)
    && (forall i :: 0 <= i < |t.committed| ==> t.committed[i].call.id in t.seen && Complete(t.committed[i]))
    && (forall i :: 0 <= i < |t.resolved| ==> t.resolved[i].call.id in t.seen && Complete(t.resolved[i]))
    && (forall i, j :: 0 <= i < |t.queue| && 0 <= j < |t.committed| ==> t.queue[i].id != t.committed[j].call.id)
    && (forall i, j :: 0 <= i < |t.queue| && 0 <= j < |t.resolved| ==> t.queue[i].id != t.resolved[j].call.id)
    && (forall i, j :: 0 <= i < |t.committed| && 0 <= j < |t.resolved| ==> t.committed[i].call.id != t.resolved[j].call.id)
    && (t.pending.Some? ==> t.queue != [] && t.pending.value.call == t.queue[0] && Answered(t.pending.value))
  }

  lemma StreamKeeps(t: Turn, call: Option<Call>)
    requires Inv(t)
    ensures Inv(Step(t, Stream(call)))
  {
  }

  // The head of the line leaves it, with all its answers.
  lemma TakeOffKeeps(t: Turn, r: Resolution)
    requires Inv(t) && t.queue != [] && r.call == t.queue[0] && Complete(r)
    ensures Inv(TakeOff(t).(committed := t.committed + [r]))
    ensures Inv(TakeOff(t).(resolved := t.resolved + [r]))
  {
  }

  lemma ReplyKeeps(t: Turn, answer: string)
    requires Inv(t)
    ensures Inv(ReplyStep(t, answer))
  {
    if t.pending.Some? && t.pending.value.index + 1 == |t.pending.value.call.questions| {
      var p := t.pending.value;
      TakeOffKeeps(t, Resolution(p.call, p.answers[p.call.questions[p.index] := answer]));
    }
  }

  lemma TimeoutKeeps(t: Turn)
    requires Inv(t)
    ensures Inv(TimeoutStep(t))
  {
    if t.pending.Some? {
      FilledIsComplete(t.pending.value);
      TakeOffKeeps(t, Filled(t.pending.value));
    }
  }

  lemma LoseKeeps(t: Turn, i: nat)
    requires Inv(t) && i < |t.committed|
    ensures Inv(Step(t, Lose(i)))
  {
  }

  lemma HandOverKeeps(t: Turn, i: nat)
    requires Inv(t) && i < |t.committed|
    ensures Inv(HandOverStep(t, i))
  {
  }

  lemma StepKeepsInv(t: Turn, e: Event)
    requires Inv(t)
    ensures Inv(Step(t, e))
  {
    match e
    case Stream(call) => StreamKeeps(t, call);
    case Reply(answer) => ReplyKeeps(t, answer);
    case HandOver(i) =>
      if i < |t.committed| {
        HandOverKeeps(t, i);
      }
    case Lose(i) =>
      if i < |t.committed| {
        LoseKeeps(t, i);
      }
    case Fire => TimeoutKeeps(t.(timer := false));
    case FireLeaked =>
      if t.leaked > 0 {
        TimeoutKeeps(t.(leaked := t.leaked - 1));
      }
    case _ =>
  }

  // In every run each call is handed over at most once, by reply or timeout, and then with
  // an answer to every one of its questions.
  lemma {:induction false} EveryRunKeepsInv(events: seq<Event>)
    ensures Inv(Run(NEW_TURN, events))
  {
    if events != [] {
      EveryRunKeepsInv(events[..|events| - 1]);
      StepKeepsInv(Run(NEW_TURN, events[..|events| - 1]), events[|events| - 1]);
    }
  }

  // ---------- After a stop ----------

  // Something may still be handed over.
  predicate InFlight(t: Turn) {
    t.committed != [] || (t.pending.Some? && (t.leaked > 0 || t.arming || t.timer))
  }

  lemma ClosedStaysQuiet(t: Turn, e: Event)
    requires t.closed && !InFlight(t)
    ensures Step(t, e).closed && !InFlight(Step(t, e)) && Step(t, e).resolved == t.resolved
  {
  }

  lemma {:induction false} QuietForever(t: Turn, events: seq<Event>)
    requires t.closed && !InFlight(t)
    ensures Run(t, events).closed && !InFlight(Run(t, events)) && Run(t, events).resolved == t.resolved
  {
    if events != [] {
      QuietForever(t, events[..|events| - 1]);
      ClosedStaysQuiet(Run(t, events[..|events| - 1]), events[|events| - 1]);
    }
  }

  lemma RunOne(t: Turn, e: Event)
    ensures Run(t, [e]) == Step(t, e)
  {
  }

  lemma RunTwo(t: Turn, e: Event, f: Event)
    ensures Run(t, [e, f]) == Step(Step(t, e), f)
  {
    assert [e, f][..1] == [e];
    RunOne(t, e);
  }

  // A turn that takes no more replies can still answer the agent exactly when an answer is
  // on its way, or a question is open and a timer is armed or about to be.
  lemma ResolvesOnceClosedIff(t: Turn)
    requires Inv(t) && t.closed
    ensures (exists events :: Run(t, events).resolved != t.resolved) <==> InFlight(t)
  {
    if !InFlight(t) {
      forall events ensures Run(t, events).resolved == t.resolved {
        QuietForever(t, events);
      }
    } else if t.committed != [] {
      RunOne(t, HandOver(0));
      assert Run(t, [HandOver(0)]).resolved != t.resolved;
    } else if t.leaked > 0 {
      RunOne(t, FireLeaked);
      assert Run(t, [FireLeaked]).resolved != t.resolved;
    } else if t.timer {
      RunOne(t, Fire);
      assert Run(t, [Fire]).resolved != t.resolved;
    } else {
      RunTwo(t, Arm, Fire);
      assert Run(t, [Arm, Fire]).resolved != t.resolved;
    }
  }

  // So after a stop: an answer was on its way, or a question was open and a timer was
  // leaked or about to be armed.
  lemma ResolvesAfterStopIff(t: Turn)
    requires Inv(t)
    ensures (exists events :: Run(Step(t, Stop), events).resolved != t.resolved)
            <==> t.committed != [] || (t.pending.Some? && (t.leaked > 0 || t.arming))
  {
    ResolvesOnceClosedIff(Step(t, Stop));
  }

  // And after the `finally` of the turn: a timer that a stopped stream armed is gone by then.
  lemma ResolvesAfterEndIff(t: Turn)
    requires Inv(t) && !t.arming && !t.ended
    ensures (exists events :: Run(Step(t, End), events).resolved != t.resolved)
            <==> t.committed != [] || (t.pending.Some? && t.leaked > 0)
  {
    ResolvesOnceClosedIff(Step(t, End));
  }

  // The turn winds down before its question timer, which takes minutes, can fire.
  predicate WindsDown(t: Turn, events: seq<Event>) {
    forall i :: 0 <= i < |events| && events[i].Fire? ==> Run(t, events[..i]).ended
  }

  // No answer on its way, none to come by a leaked timer, and no timer once the turn is over.
  predicate Spent(t: Turn) {
    && t.closed && t.committed == [] && (t.pending.Some? ==> t.leaked == 0)
    && (t.ended ==> !t.timer && !t.arming)
  }

  lemma StepKeepsSpent(t: Turn, e: Event)
    requires Spent(t) && (e.Fire? ==> t.ended)
    ensures Spent(Step(t, e)) && Step(t, e).resolved == t.resolved
  {
  }

  lemma {:induction false} SpentForever(t: Turn, events: seq<Event>)
    requires Spent(t) && WindsDown(t, events)
    ensures Spent(Run(t, events)) && Run(t, events).resolved == t.resolved
  {
    if events != [] {
      var before := events[..|events| - 1];
      forall i | 0 <= i < |before| && before[i].Fire? ensures Run(t, before[..i]).ended {
        assert before[..i] == events[..i];
      }
      SpentForever(t, before);
      StepKeepsSpent(Run(t, before), events[|events| - 1]);
    }
  }

  // When the stopped turn winds down in time, a timer about to be armed does no harm: only
  // an answer on its way or a leaked timer does.
  lemma ResolvesAfterPromptStopIff(t: Turn)
    requires Inv(t)
    ensures (exists events :: WindsDown(Step(t, Stop), events) && Run(Step(t, Stop), events).resolved != t.resolved)
            <==> t.committed != [] || (t.pending.Some? && t.leaked > 0)
  {
    var s := Step(t, Stop);
    if s.committed != [] {
      RunOne(s, HandOver(0));
      assert WindsDown(s, [HandOver(0)]) && Run(s, [HandOver(0)]).resolved != t.resolved;
    } else if s.pending.Some? && s.leaked > 0 {
      RunOne(s, FireLeaked);
      assert WindsDown(s, [FireLeaked]) && Run(s, [FireLeaked]).resolved != t.resolved;
    } else {
      forall events | WindsDown(s, events) ensures Run(s, events).resolved == t.resolved {
        SpentForever(s, events);
      }
    }
  }

  // It does happen: the reply is in, its card is still being updated, the task is stopped.
  lemma CanResolveAfterStop(c: Call, answer: string)
    requires |c.questions| == 1
    ensures Run(NEW_TURN, [Stream(Some(c)), Arm, Reply(answer), Stop, HandOver(0)]).resolved
            == [Resolution(c, map[c.questions[0] := answer])]
  {
    var surfaced := Step(Step(NEW_TURN, Stream(Some(c))), Arm);
    assert [] + [c] == [c];
    assert surfaced == Turn([c], Some(NewPending(c)), [], [], {c.id}, true, 0, false, false, false);
    var r := Resolution(c, map[c.questions[0] := answer]);
    assert map[][c.questions[0] := answer] == r.answers;
    var replied := Step(surfaced, Reply(answer));
    assert replied.committed == [r] && replied.queue == [] && replied.resolved == [];
    var stopped := Step(replied, Stop);
    assert Step(stopped, HandOver(0)).resolved == [] + [r];
    var events := [Stream(Some(c)), Arm, Reply(answer), Stop, HandOver(0)];
    assert events[..4] == [Stream(Some(c)), Arm, Reply(answer), Stop];
    assert events[..4][..3] == [Stream(Some(c)), Arm, Reply(answer)];
    assert events[..4][..3][..2] == [Stream(Some(c)), Arm];
    RunTwo(NEW_TURN, Stream(Some(c)), Arm);
    assert Run(NEW_TURN, events[..4][..3]) == replied;
    assert Run(NEW_TURN, events[..4]) == stopped;
  }

  // ---------- Between turns ----------

  // One slot for a chat. A call that left it unanswered is in `dropped`.
  datatype Slot = Slot(pending: Option<Pending>, resolved: seq<Resolution>, dropped: set<nat>, seen: set<nat>)

  // `Begin` and `Open` are the two blocks that bring up a call. Timers may be left armed, so
  // `Timeout` can fire whenever. `alive`: the agent's process is there to be answered.
  datatype SlotEvent =
    | Begin(call: Call)
    | Open(call: Call)
    | Answer(answer: string, alive: bool)
    | Timeout(alive: bool)
    | Cancel

  const NO_QUESTION := Slot(None, [], {}, {})

  function Drop(s: Slot): Slot {
    match s.pending
    case None => s
    case Some(p) => s.(pending := None, dropped := s.dropped + {p.call.id})
  }

  function Settle(s: Slot, r: Resolution, alive: bool): Slot {
    if alive then s.(pending := None, resolved := s.resolved + [r]) else Drop(s)
  }

  function AnswerSlot(s: Slot, answer: string, alive: bool): Slot {
    if s.pending.None? then s
    else
      var p := s.pending.value;
      if p.index >= |p.call.questions| then s
      else
        var answers := p.answers[p.call.questions[p.index] := answer];
        if p.index + 1 < |p.call.questions| then s.(pending := Some(Pending(p.call, p.index + 1, answers)))
        else Settle(s, Resolution(p.call, answers), alive)
  }

  function SlotStep(s: Slot, e: SlotEvent): Slot {
    match e
    case Begin(call) => if call.questions == [] then s else Drop(s)
    case Open(call) =>
      if call.questions == [] || call.id in s.seen then s
      else Drop(s).(pending := Some(NewPending(call)), seen := s.seen + {call.id})
    case Answer(answer, alive) => AnswerSlot(s, answer, alive)
    case Timeout(alive) => if s.pending.None? then s else Settle(s, Filled(s.pending.value), alive)
    case Cancel => Drop(s)
  }

  function SlotRun(s: Slot, events: seq<SlotEvent>): Slot {
    if events == [] then s else SlotStep(SlotRun(s, events[..|events| - 1]), events[|events| - 1])
  }

  ghost predicate SlotInv(s: Slot) {
    && DistinctCalls(s.resolved)
    && (forall i :: 0 <= i < |s.resolved| ==>
          Complete(s.resolved[i]) && s.resolved[i].call.id in s.seen && s.resolved[i].call.id !in s.dropped)
    && s.dropped <= s.seen
    && (s.pending.Some? ==>
          && Answered(s.pending.value) && s.pending.value.call.id in s.seen && s.pending.value.call.id !in s.dropped
          && forall i :: 0 <= i < |s.resolved| ==> s.resolved[i].call.id != s.pending.value.call.id)
  }

  lemma SlotStepKeepsInv(s: Slot, e: SlotEvent)
    requires SlotInv(s)
    ensures SlotInv(SlotStep(s, e))
  {
    if e.Timeout? && s.pending.Some? {
      FilledIsComplete(s.pending.value);
    }
  }

  // In every run a call is answered at most once and completely, and never after it was
  // superseded, cancelled, or dropped with its agent.
  lemma {:induction false} EverySlotRunKeepsInv(events: seq<SlotEvent>)
    ensures SlotInv(SlotRun(NO_QUESTION, events))
  {
    if events != [] {
      EverySlotRunKeepsInv(events[..|events| - 1]);
      SlotStepKeepsInv(SlotRun(NO_QUESTION, events[..|events| - 1]), events[|events| - 1]);
    }
  }

  // A dropped call stays dropped, whatever comes later.
  lemma {:induction false} DroppedForGood(s: Slot, events: seq<SlotEvent>, id: nat)
    requires SlotInv(s) && id in s.dropped
    ensures SlotInv(SlotRun(s, events)) && id in SlotRun(s, events).dropped
    ensures forall i :: 0 <= i < |SlotRun(s, events).resolved| ==> SlotRun(s, events).resolved[i].call.id != id
  {
    if events != [] {
      DroppedForGood(s, events[..|events| - 1], id);
      SlotStepKeepsInv(SlotRun(s, events[..|events| - 1]), events[|events| - 1]);
    }
  }
}
