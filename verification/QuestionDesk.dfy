/** The parts of the bridge that keep open questions, step by step as QuestionProtocol has it. */
module QuestionDesk {
  import opened Common
  import opened QuestionProtocol

  // Gives every question without an answer the default one.
  method FillRemaining(questions: seq<string>, index: nat, collected: map<string, string>)
    returns (answers: map<string, string>)
    requires index <= |questions|
    ensures answers == FillFrom(questions, index, collected)
  {
    answers := collected;
    for i := index to |questions|
      invariant FillFrom(questions, i, answers) == FillFrom(questions, index, collected)
    {
      if !(questions[i] in answers && answers[questions[i]] != "") {
        answers := answers[questions[i] := NO_REPLY];
      }
    }
  }

  // ---------- The question fields of a running task ----------

  class TaskQuestions {
    var processorQueue: seq<Call>
    var pendingQuestion: Option<Call>
    var currentQuestionIndex: nat
    var collectedAnswers: map<string, string>
    var questionTimeout: bool
    var cancelled: bool
    // Answer handlers that await the card update, and what was handed to the agent.
    var committed: seq<Resolution>
    var resolved: seq<Resolution>
    ghost var seen: set<nat>
    ghost var leaked: nat
    ghost var arming: bool
    ghost var ended: bool
    ghost var history: seq<Event>

    ghost function View(): Turn
      reads this
    {
      Turn(processorQueue,
           if pendingQuestion.None? then None
           else Some(Pending(pendingQuestion.value, currentQuestionIndex, collectedAnswers)),
           committed, resolved, seen, questionTimeout, leaked, arming, cancelled, ended)
    }

    ghost predicate Valid()
      reads this
    {
      View() == Run(NEW_TURN, history)
    }

    lemma Holds()
      requires Valid()
      ensures Inv(View())
    {
      EveryRunKeepsInv(history);
    }

    constructor ()
      ensures Valid() && View() == NEW_TURN
    {
      processorQueue, pendingQuestion, currentQuestionIndex, collectedAnswers := [], None, 0, map[];
      questionTimeout, cancelled, committed, resolved := false, false, [], [];
      seen, leaked, arming, ended, history := {}, 0, false, false, [];
    }

    ghost method Record(e: Event, before: Turn)
      requires before == Run(NEW_TURN, history) && View() == Step(before, e)
      modifies `history
      ensures Valid() && history == old(history) + [e]
    {
      assert (history + [e])[..|history|] == history;
      history := history + [e];
    }

    // A stream message arrived; `call` is new with it.
    method SurfaceQuestion(call: Option<Call>)
      requires Valid() && !cancelled && !arming && (call.Some? ==> call.value.id !in seen)
      modifies this
      ensures Valid() && View() == Step(old(View()), Stream(call))
    {
      ghost var before := View();
      if call.Some? {
        processorQueue := processorQueue + [call.value];
        seen := seen + {call.value.id};
      }
      if processorQueue != [] {
        if pendingQuestion.None? || pendingQuestion.value.id != processorQueue[0].id {
          pendingQuestion := Some(processorQueue[0]);
          currentQuestionIndex := 0;
          collectedAnswers := map[];
        }
        arming := true;
      } else if pendingQuestion.None? {
        questionTimeout := false;
      }
      Record(Stream(call), before);
    }

    method ArmTimer()
      requires Valid() && arming
      modifies this
      ensures Valid() && View() == Step(old(View()), Arm)
    {
      ghost var before := View();
      arming := false;
      questionTimeout := true;
      Record(Arm, before);
    }

    // A card could not be sent: the stream loop is left before the timer is armed.
    ghost method SurfacingFailed()
      requires Valid() && arming
      modifies this
      ensures Valid() && View() == Step(old(View()), FailToArm)
    {
      ghost var before := View();
      arming := false;
      Record(FailToArm, before);
    }

    method ClearPendingQuestion()
      modifies `processorQueue, `pendingQuestion, `currentQuestionIndex, `collectedAnswers
      ensures View() == TakeOff(old(View()))
    {
      pendingQuestion := None;
      currentQuestionIndex := 0;
      collectedAnswers := map[];
      if processorQueue != [] {
        processorQueue := processorQueue[1..];
      }
    }

    method TakeAnswer(answer: string)
      modifies `collectedAnswers, `currentQuestionIndex, `questionTimeout, `processorQueue, `pendingQuestion, `committed
      ensures View() == ReplyStep(old(View()), answer)
    {
      if pendingQuestion.None? || currentQuestionIndex >= |pendingQuestion.value.questions| {
        return;
      }
      var call := pendingQuestion.value;
      collectedAnswers := collectedAnswers[call.questions[currentQuestionIndex] := answer];
      if currentQuestionIndex + 1 < |call.questions| {
        currentQuestionIndex := currentQuestionIndex + 1;
        questionTimeout := true;
      } else {
        var answers := collectedAnswers;
        questionTimeout := false;
        ClearPendingQuestion();
        committed := committed + [Resolution(call, answers)];
      }
    }

    // A typed answer, up to the first await.
    method HandleAnswer(answer: string)
      requires Valid() && !cancelled
      modifies this
      ensures Valid() && View() == Step(old(View()), Reply(answer))
    {
      ghost var before := View();
      TakeAnswer(answer);
      Record(Reply(answer), before);
    }

    // The next call of the line gets a card and a timer of its own.
    method BringUpNext()
      requires processorQueue != []
      modifies `pendingQuestion, `currentQuestionIndex, `collectedAnswers, `leaked, `questionTimeout
      ensures View() == old(View()).(pending := Some(NewPending(processorQueue[0])), timer := true,
                                     leaked := old(leaked) + if old(questionTimeout) then 1 else 0)
    {
      pendingQuestion := Some(processorQueue[0]);
      currentQuestionIndex := 0;
      collectedAnswers := map[];
      leaked := leaked + (if questionTimeout then 1 else 0);
      questionTimeout := true;
    }

    // The rest of the handler, after the card was updated.
    method ResolveCommitted(i: nat)
      requires Valid() && i < |committed|
      modifies this
      ensures Valid() && View() == Step(old(View()), HandOver(i))
      ensures resolved == old(resolved) + [old(committed)[i]]
    {
      ghost var before := View();
      resolved := resolved + [committed[i]];
      committed := committed[..i] + committed[i + 1..];
      if processorQueue != [] {
        BringUpNext();
      }
      assert View() == HandOverStep(before, i);
      Record(HandOver(i), before);
    }

    // The timer in `questionTimeout` fires.
    method AutoAnswerRemainingQuestions()
      requires Valid() && questionTimeout
      modifies this
      ensures Valid() && View() == Step(old(View()), Fire)
      ensures pendingQuestion.None?
    {
      Holds();
      ghost var before := View();
      questionTimeout := false;
      if pendingQuestion.Some? {
        var call := pendingQuestion.value;
        var answers := FillRemaining(call.questions, currentQuestionIndex, collectedAnswers);
        ClearPendingQuestion();
        resolved := resolved + [Resolution(call, answers)];
      }
      Record(Fire, before);
    }

    method StopTask()
      requires Valid()
      modifies this
      ensures Valid() && View() == Step(old(View()), Stop)
    {
      ghost var before := View();
      questionTimeout := false;
      cancelled := true;
      Record(Stop, before);
    }

    // The `finally` of the turn.
    method FinishTurn()
      requires Valid() && !arming && !ended
      modifies this
      ensures Valid() && View() == Step(old(View()), End)
      ensures !questionTimeout
    {
      ghost var before := View();
      questionTimeout := false;
      cancelled := true;
      ended := true;
      Record(End, before);
    }
  }

  // ---------- The slot of each chat ----------

  class BetweenTurnQuestions {
    var pending: map<string, Pending>
    ghost var slots: map<string, Slot>

    ghost function SlotOf(chat: string): Slot
      reads `slots
    {
      LookupOr(slots, chat, NO_QUESTION)
    }

    ghost predicate Valid()
      reads this
    {
      && (forall chat :: SlotOf(chat).pending == Lookup(pending, chat))
      && (forall chat :: SlotInv(SlotOf(chat)))
    }

    constructor ()
      ensures Valid() && pending == map[] && slots == map[]
    {
      pending, slots := map[], map[];
    }

    ghost method Record(chat: string, e: SlotEvent, before: map<string, Pending>)
      requires forall other :: SlotOf(other).pending == Lookup(before, other)
      requires forall other :: SlotInv(SlotOf(other))
      requires Lookup(pending, chat) == SlotStep(SlotOf(chat), e).pending
      requires forall other :: other != chat ==> Lookup(pending, other) == Lookup(before, other)
      modifies `slots
      ensures Valid() && slots == old(slots)[chat := SlotStep(old(SlotOf(chat)), e)]
    {
      SlotStepKeepsInv(SlotOf(chat), e);
      slots := slots[chat := SlotStep(SlotOf(chat), e)];
    }

    // The block before the card is sent: an older question is superseded.
    method BeginQuestion(chat: string, call: Call)
      requires Valid()
      modifies this
      ensures Valid() && slots == old(slots)[chat := SlotStep(old(SlotOf(chat)), Begin(call))]
    {
      if call.questions != [] {
        pending := Without(pending, chat);
      }
      Record(chat, Begin(call), old(pending));
    }

    // The block after it.
    method OpenQuestion(chat: string, call: Call)
      requires Valid() && call.questions != [] && call.id !in SlotOf(chat).seen
      modifies this
      ensures Valid() && slots == old(slots)[chat := SlotStep(old(SlotOf(chat)), Open(call))]
    {
      pending := pending[chat := NewPending(call)];
      Record(chat, Open(call), old(pending));
    }

    method CancelPending(chat: string)
      requires Valid()
      modifies this
      ensures Valid() && slots == old(slots)[chat := SlotStep(old(SlotOf(chat)), Cancel)]
      ensures chat !in pending
    {
      pending := Without(pending, chat);
      Record(chat, Cancel, old(pending));
    }

    // Whether the message was taken as an answer, and what it resolves.
    method TryHandleReply(chat: string, answer: string, alive: bool) returns (taken: bool, out: Option<Resolution>)
      requires Valid()
      modifies this
      ensures Valid() && slots == old(slots)[chat := SlotStep(old(SlotOf(chat)), Answer(answer, alive))]
      ensures taken <==> chat in old(pending)
      ensures SlotOf(chat).resolved == old(SlotOf(chat)).resolved + if out.Some? then [out.value] else []
      ensures out.Some? ==> alive && Complete(out.value)
    {
      out := None;
      taken := chat in pending;
      ghost var before := SlotOf(chat);
      SlotStepKeepsInv(before, Answer(answer, alive));
      if taken {
        var p := pending[chat];
        if p.index < |p.call.questions| {
          var answers := p.answers[p.call.questions[p.index] := answer];
          if p.index + 1 < |p.call.questions| {
            pending := pending[chat := Pending(p.call, p.index + 1, answers)];
          } else {
            pending := Without(pending, chat);
            if alive {
              out := Some(Resolution(p.call, answers));
            }
          }
        }
      }
      Record(chat, Answer(answer, alive), old(pending));
      if out.Some? {
        assert SlotOf(chat).resolved[|before.resolved|] == out.value;
      }
    }

    method AutoAnswer(chat: string, alive: bool) returns (out: Option<Resolution>)
      requires Valid()
      modifies this
      ensures Valid() && slots == old(slots)[chat := SlotStep(old(SlotOf(chat)), Timeout(alive))]
      ensures SlotOf(chat).resolved == old(SlotOf(chat)).resolved + if out.Some? then [out.value] else []
      ensures out.Some? <==> chat in old(pending) && alive
      ensures out.Some? ==> Complete(out.value)
    {
      out := None;
      if chat in pending {
        var p := pending[chat];
        FilledIsComplete(p);
        pending := Without(pending, chat);
        var answers := FillRemaining(p.call.questions, p.index, p.answers);
        if alive {
          out := Some(Resolution(p.call, answers));
        }
      }
      Record(chat, Timeout(alive), old(pending));
    }
  }
}
