/**
 The per-chat maps of the message bridge and the synchronous blocks that update them.
 Every block is proved to take, for its chat, the step of TurnProtocol it stands for, and
 to leave every other chat alone.
 */
module MessageBridge {
  import opened Common
  import opened TurnProtocol

  type ChatId = string

  class Bridge {
    var startingTasks: map<ChatId, nat>
    var runningTasks: map<ChatId, nat>
    var messageQueues: map<ChatId, seq<Message>>
    var pendingBatches: map<ChatId, Message>
    var restartQuiesceRequestId: Option<RequestId>
    // The task objects of each chat; an index is an object's identity.
    var tasks: map<ChatId, seq<Turn>>
    ghost var ledgers: map<ChatId, Ledger>
    // Every block taken so far, as each chat saw it.
    ghost var history: ChatId -> seq<Event>

    ghost function View(c: ChatId): State
      reads this
    {
      State(LookupOr(tasks, c, []), Lookup(startingTasks, c), Lookup(runningTasks, c),
            LookupOr(messageQueues, c, []), LookupOr(pendingBatches, c, []),
            restartQuiesceRequestId, LookupOr(ledgers, c, INITIAL_LEDGER))
    }

    // A key is present only while its list is not empty.
    ghost predicate RepOk()
      reads this
    {
      && (forall c :: c in messageQueues ==> messageQueues[c] != [])
      && (forall c :: c in pendingBatches ==> pendingBatches[c] != [])
    }

    // Each chat is where the protocol takes it from a fresh chat.
    ghost predicate Valid()
      reads this
    {
      RepOk() && forall c :: View(c) == Run(INITIAL, history(c))
    }

    // So every invariant of the protocol holds of every chat at all times.
    lemma Holds(c: ChatId)
      requires Valid()
      ensures Inv(View(c))
    {
      EveryRunKeepsInv(history(c));
    }

    constructor ()
      ensures Valid()
      ensures forall c :: View(c) == INITIAL
    {
      startingTasks, runningTasks, messageQueues, pendingBatches := map[], map[], map[], map[];
      restartQuiesceRequestId, tasks, ledgers := None, map[], map[];
      history := (c: ChatId) => [];
    }

    // ---------- Building blocks ----------

    predicate IsChatBusy(c: ChatId)
      reads this
      ensures IsChatBusy(c) == Busy(View(c))
    {
      c in startingTasks || c in runningTasks
    }

    method ReserveTaskStart(c: ChatId, work: Message) returns (task: Option<nat>)
      requires RepOk()
      modifies this
      ensures RepOk() && forall d :: d != c ==> View(d) == old(View(d))
      ensures task.Some? <==> Reserve(old(View(c)), work).Some?
      ensures View(c) == Reserve(old(View(c)), work).GetOr(old(View(c)))
      ensures task.Some? ==> View(c).starting == task
      ensures ledgers == old(ledgers)
      ensures history == old(history)
    {
      if restartQuiesceRequestId.Some? || IsChatBusy(c) {
        return None;
      }
      var objects := LookupOr(tasks, c, []);
      tasks := tasks[c := objects + [Turn(Setup, false, work)]];
      startingTasks := startingTasks[c := |objects|];
      task := Some(|objects|);
    }

    method StartQuery(c: ChatId, m: Message)
      requires RepOk()
      modifies this
      ensures RepOk() && forall d :: d != c ==> View(d) == old(View(d))
      ensures history == old(history)
      ensures View(c) == TurnProtocol.StartQuery(old(View(c)), m)
    {
      var task := ReserveTaskStart(c, m);
      ghost var l := LookupOr(ledgers, c, INITIAL_LEDGER);
      if task.Some? {
        ledgers := ledgers[c := l.(begun := l.begun + multiset(m))];
      } else {
        ledgers := ledgers[c := l.(refused := l.refused + multiset(m))];
      }
    }

    method ProcessQueue(c: ChatId)
      requires RepOk()
      modifies this
      ensures RepOk() && forall d :: d != c ==> View(d) == old(View(d))
      ensures history == old(history)
      ensures View(c) == TurnProtocol.ProcessQueue(old(View(c)))
    {
      if restartQuiesceRequestId.Some? {
        return;
      }
      if c !in messageQueues {
        return;
      }
      var queue := messageQueues[c];
      var next := queue[0];
      queue := queue[1..];
      if queue == [] {
        messageQueues := Without(messageQueues, c);
      } else {
        messageQueues := messageQueues[c := queue];
      }
      ghost var l := LookupOr(ledgers, c, INITIAL_LEDGER);
      ledgers := ledgers[c := l.(left := l.left + [next])];
      StartQuery(c, next);
    }

    method Enqueue(c: ChatId, m: Message) returns (queued: bool)
      requires RepOk()
      modifies this
      ensures RepOk() && forall d :: d != c ==> View(d) == old(View(d))
      ensures history == old(history)
      ensures View(c) == TurnProtocol.Enqueue(old(View(c)), m)
      ensures queued <==> |old(View(c)).queue| < MAX_QUEUE_SIZE
    {
      var queue := LookupOr(messageQueues, c, []);
      ghost var l := LookupOr(ledgers, c, INITIAL_LEDGER);
      if |queue| >= MAX_QUEUE_SIZE {
        ledgers := ledgers[c := l.(refused := l.refused + multiset(m))];
        return false;
      }
      messageQueues := messageQueues[c := queue + [m]];
      ledgers := ledgers[c := l.(queued := l.queued + [m])];
      queued := true;
    }

    ghost method RecordOffer(c: ChatId, id: MessageId)
      requires RepOk()
      modifies this`ledgers
      ensures RepOk() && forall d :: d != c ==> View(d) == old(View(d))
      ensures View(c) == Offer(old(View(c)), id)
    {
      var l := LookupOr(ledgers, c, INITIAL_LEDGER);
      ledgers := ledgers[c := l.(offered := l.offered + multiset{id})];
    }

    method SetTask(c: ChatId, t: nat, task: Turn)
      requires RepOk() && t < |View(c).turns|
      modifies this`tasks
      ensures RepOk() && forall d :: d != c ==> View(d) == old(View(d))
      ensures View(c) == old(View(c)).(turns := old(View(c)).turns[t := task])
    {
      tasks := tasks[c := tasks[c][t := task]];
    }

    method StopTask(c: ChatId)
      requires RepOk() && Inv(View(c))
      modifies this
      ensures RepOk() && forall d :: d != c ==> View(d) == old(View(d))
      ensures history == old(history)
      ensures View(c) == TurnProtocol.StopTask(old(View(c)))
    {
      if c in startingTasks {
        var t := startingTasks[c];
        OwnershipMeans(View(c), t);
        SetTask(c, t, tasks[c][t].(cancelled := true));
        startingTasks := Without(startingTasks, c);
      } else if c in runningTasks {
        var t := runningTasks[c];
        OwnershipMeans(View(c), t);
        SetTask(c, t, tasks[c][t].(cancelled := true));
        runningTasks := Without(runningTasks, c);
      }
    }

    method ClearChatQueue(c: ChatId) returns (cleared: nat)
      requires RepOk()
      modifies this
      ensures RepOk() && forall d :: d != c ==> View(d) == old(View(d))
      ensures history == old(history)
      ensures View(c) == ClearQueue(old(View(c)))
      ensures cleared == |old(View(c)).queue|
    {
      ghost var l := LookupOr(ledgers, c, INITIAL_LEDGER);
      ghost var q := LookupOr(messageQueues, c, []);
      cleared := 0;
      if c in messageQueues {
        cleared := |messageQueues[c]|;
        messageQueues := Without(messageQueues, c);
      }
      ledgers := ledgers[c := l.(left := l.left + q, cleared := l.cleared + Flat(q))];
    }

    method TakeMessage(c: ChatId, id: MessageId, media: bool)
      requires RepOk()
      modifies this
      ensures RepOk() && forall d :: d != c ==> View(d) == old(View(d))
      ensures history == old(history)
      ensures View(c) == DeliverMessage(old(View(c)), id, media)
    {
      RecordOffer(c, id);
      var batch := LookupOr(pendingBatches, c, []);
      if IsChatBusy(c) {
        if batch != [] && media {
          pendingBatches := pendingBatches[c := batch + [id]];
        } else {
          var message := [id];
          if batch != [] {
            pendingBatches := Without(pendingBatches, c);
            message := batch + [id];
          }
          assert message == batch + [id];
          var _ := Enqueue(c, message);
        }
      } else if media {
        pendingBatches := pendingBatches[c := batch + [id]];
      } else {
        pendingBatches := Without(pendingBatches, c);
        StartQuery(c, batch + [id]);
      }
    }

    method TakeCommand(c: ChatId, id: MessageId) returns (started: bool)
      requires RepOk()
      modifies this
      ensures RepOk() && forall d :: d != c ==> View(d) == old(View(d))
      ensures history == old(history)
      ensures View(c) == Command(old(View(c)), id)
      ensures started <==> !Busy(old(View(c)))
    {
      RecordOffer(c, id);
      started := !IsChatBusy(c);
      if started {
        StartQuery(c, [id]);
      } else {
        ghost var l := LookupOr(ledgers, c, INITIAL_LEDGER);
        ledgers := ledgers[c := l.(refused := l.refused + multiset{id})];
      }
    }

    method ResumeQueue(c: ChatId)
      requires RepOk()
      modifies this
      ensures RepOk() && forall d :: d != c ==> View(d) == old(View(d))
      ensures history == old(history) && restartQuiesceRequestId == old(restartQuiesceRequestId)
      ensures View(c) == Resume(old(View(c)))
    {
      if !IsChatBusy(c) {
        ProcessQueue(c);
      }
    }

    // Restarts the queue of every idle chat once the quiesce flag is down.
    method ResumeQueues()
      requires RepOk() && restartQuiesceRequestId.None?
      modifies this
      ensures RepOk() && history == old(history)
      ensures forall c :: View(c) == Resume(old(View(c)))
    {
      var todo := messageQueues.Keys;
      while todo != {}
        invariant RepOk() && restartQuiesceRequestId.None? && history == old(history)
        invariant forall c :: c in todo ==> View(c) == old(View(c))
        invariant forall c :: c !in todo ==> View(c) == Resume(old(View(c)))
        decreases todo
      {
        var c :| c in todo;
        todo := todo - {c};
        ResumeQueue(c);
      }
    }

    ghost method Record(c: ChatId, e: Event)
      requires RepOk() && View(c) == Run(INITIAL, history(c) + [e])
      requires forall d :: d != c ==> View(d) == Run(INITIAL, history(d))
      modifies this`history
      ensures Valid() && forall d :: View(d) == old(View(d))
      ensures history(c) == old(history)(c) + [e]
      ensures forall d :: d != c ==> history(d) == old(history)(d)
    {
      var h := history;
      history := (d: ChatId) => if d == c then h(d) + [e] else h(d);
      assert forall d :: View(d) == old(View(d));
    }

    ghost method RecordForAll(e: Event)
      requires RepOk() && forall c :: View(c) == Run(INITIAL, history(c) + [e])
      modifies this`history
      ensures Valid() && forall c :: View(c) == old(View(c))
      ensures forall c :: history(c) == old(history)(c) + [e]
    {
      var h := history;
      history := (d: ChatId) => h(d) + [e];
      assert forall d :: View(d) == old(View(d));
    }

    // ---------- The blocks of the machine ----------

    // The last block of `handleMessage` for a text or media message.
    method HandleMessage(c: ChatId, id: MessageId, media: bool)
      requires Valid()
      modifies this
      ensures Valid() && View(c) == Step(old(View(c)), Deliver(id, media))
      ensures forall d :: d != c ==> View(d) == old(View(d))
      ensures history(c) == old(history)(c) + [Deliver(id, media)]
      ensures forall d :: d != c ==> history(d) == old(history)(d)
    {
      RunExtend(INITIAL, history(c), Deliver(id, media));
      TakeMessage(c, id, media);
      Record(c, Deliver(id, media));
    }

    method FlushBatch(c: ChatId)
      requires Valid()
      modifies this
      ensures Valid() && View(c) == Step(old(View(c)), Event.FlushBatch)
      ensures forall d :: d != c ==> View(d) == old(View(d))
      ensures history(c) == old(history)(c) + [Event.FlushBatch]
      ensures forall d :: d != c ==> history(d) == old(history)(d)
    {
      if c in pendingBatches {
        var merged := pendingBatches[c];
        pendingBatches := Without(pendingBatches, c);
        if IsChatBusy(c) {
          var _ := Enqueue(c, merged);
        } else {
          StartQuery(c, merged);
        }
      }
      RunExtend(INITIAL, history(c), Event.FlushBatch);
      Record(c, Event.FlushBatch);
    }

    // A slash command that is passed through to the engine.
    method HandlePassThroughCommand(c: ChatId, id: MessageId) returns (started: bool)
      requires Valid()
      modifies this
      ensures Valid() && View(c) == Step(old(View(c)), StartCommand(id))
      ensures forall d :: d != c ==> View(d) == old(View(d))
      ensures history(c) == old(history)(c) + [StartCommand(id)]
      ensures forall d :: d != c ==> history(d) == old(history)(d)
      ensures started <==> !Busy(old(View(c)))
    {
      RunExtend(INITIAL, history(c), StartCommand(id));
      started := TakeCommand(c, id);
      Record(c, StartCommand(id));
    }

    // The synchronous start of `executeApiTask`.
    method StartApiTask(c: ChatId) returns (task: Option<nat>)
      requires Valid()
      modifies this
      ensures Valid() && View(c) == Step(old(View(c)), Event.StartApiTask)
      ensures forall d :: d != c ==> View(d) == old(View(d))
      ensures history(c) == old(history)(c) + [Event.StartApiTask]
      ensures forall d :: d != c ==> history(d) == old(history)(d)
      ensures task.Some? ==> View(c).starting == task
    {
      task := ReserveTaskStart(c, []);
      RunExtend(INITIAL, history(c), Event.StartApiTask);
      Record(c, Event.StartApiTask);
    }

    // The block after the last await of the setup.
    method EndSetup(c: ChatId, t: nat, ready: bool)
      requires Valid() && InPhase(View(c), t, {Setup})
      modifies this
      ensures Valid() && View(c) == Step(old(View(c)), Event.EndSetup(t, ready))
      ensures forall d :: d != c ==> View(d) == old(View(d))
      ensures history(c) == old(history)(c) + [Event.EndSetup(t, ready)]
      ensures forall d :: d != c ==> history(d) == old(history)(d)
    {
      if ready && !tasks[c][t].cancelled && Lookup(startingTasks, c) == Some(t) {
        SetTask(c, t, tasks[c][t].(phase := Running));
        startingTasks := Without(startingTasks, c);
        runningTasks := runningTasks[c := t];
      } else {
        SetTask(c, t, tasks[c][t].(phase := Aborting));
      }
      RunExtend(INITIAL, history(c), Event.EndSetup(t, ready));
      Record(c, Event.EndSetup(t, ready));
    }

    // The `finally` of `startQuery` and `executeApiTask`.
    method ReleaseTaskStart(c: ChatId, t: nat)
      requires Valid() && InPhase(View(c), t, {Aborting, Finishing})
      modifies this
      ensures Valid() && View(c) == Step(old(View(c)), Release(t))
      ensures forall d :: d != c ==> View(d) == old(View(d))
      ensures history(c) == old(history)(c) + [Release(t)]
      ensures forall d :: d != c ==> history(d) == old(history)(d)
    {
      SetTask(c, t, tasks[c][t].(phase := Done));
      if Lookup(startingTasks, c) == Some(t) {
        startingTasks := Without(startingTasks, c);
        ProcessQueue(c);
      }
      RunExtend(INITIAL, history(c), Release(t));
      Record(c, Release(t));
    }

    // The `finally` of a turn that was registered as running.
    method FinishTask(c: ChatId, t: nat)
      requires Valid() && InPhase(View(c), t, {Running})
      modifies this
      ensures Valid() && View(c) == Step(old(View(c)), Finish(t))
      ensures forall d :: d != c ==> View(d) == old(View(d))
      ensures history(c) == old(history)(c) + [Finish(t)]
      ensures forall d :: d != c ==> history(d) == old(history)(d)
    {
      SetTask(c, t, tasks[c][t].(phase := Finishing));
      if Lookup(runningTasks, c) == Some(t) {
        runningTasks := Without(runningTasks, c);
        ProcessQueue(c);
      }
      RunExtend(INITIAL, history(c), Finish(t));
      Record(c, Finish(t));
    }

    // `/stop` and `/reset`: the queue goes first, then the task.
    method HandleStopCommand(c: ChatId) returns (cleared: nat)
      requires Valid()
      modifies this
      ensures Valid() && View(c) == Step(old(View(c)), StopCommand)
      ensures forall d :: d != c ==> View(d) == old(View(d))
      ensures history(c) == old(history)(c) + [StopCommand]
      ensures forall d :: d != c ==> history(d) == old(history)(d)
      ensures cleared == |old(View(c)).queue|
    {
      Holds(c);
      StopKeeps(View(c));
      cleared := ClearChatQueue(c);
      StopTask(c);
      RunExtend(INITIAL, history(c), StopCommand);
      Record(c, StopCommand);
    }

    method StopChatTask(c: ChatId) returns (stopped: bool)
      requires Valid()
      modifies this
      ensures Valid() && View(c) == Step(old(View(c)), Event.StopChatTask)
      ensures forall d :: d != c ==> View(d) == old(View(d))
      ensures history(c) == old(history)(c) + [Event.StopChatTask]
      ensures forall d :: d != c ==> history(d) == old(history)(d)
      ensures stopped <==> Busy(old(View(c)))
    {
      Holds(c);
      stopped := IsChatBusy(c);
      if stopped {
        StopTask(c);
      }
      RunExtend(INITIAL, history(c), Event.StopChatTask);
      Record(c, Event.StopChatTask);
    }

    method BeginRestartQuiesce(request: RequestId)
      requires Valid()
      modifies this
      ensures Valid() && forall c :: View(c) == Step(old(View(c)), BeginQuiesce(request))
      ensures forall c :: history(c) == old(history)(c) + [BeginQuiesce(request)]
    {
      restartQuiesceRequestId := Some(request);
      forall c ensures View(c) == Run(INITIAL, history(c) + [BeginQuiesce(request)]) {
        RunExtend(INITIAL, history(c), BeginQuiesce(request));
        assert View(c) == old(View(c)).(quiesce := Some(request));
      }
      RecordForAll(BeginQuiesce(request));
    }

    method CancelRestartQuiesce(request: RequestId)
      requires Valid()
      modifies this
      ensures Valid() && forall c :: View(c) == Step(old(View(c)), CancelQuiesce(request))
      ensures forall c :: history(c) == old(history)(c) + [CancelQuiesce(request)]
    {
      if restartQuiesceRequestId == Some(request) {
        restartQuiesceRequestId := None;
        assert forall c :: View(c) == old(View(c)).(quiesce := None);
        ResumeQueues();
      }
      assert forall c :: View(c) == ReleaseQuiesce(old(View(c)), request);
      forall c ensures View(c) == Run(INITIAL, history(c) + [CancelQuiesce(request)]) {
        RunExtend(INITIAL, history(c), CancelQuiesce(request));
      }
      RecordForAll(CancelQuiesce(request));
    }

    // The chats a process restart would interrupt: the starting ones, then the running ones.
    method GetRestartTaskSnapshots() returns (chats: seq<ChatId>)
      requires Valid()
      ensures forall c :: c in chats <==> Busy(View(c))
      ensures Distinct(chats)
    {
      forall c ensures c !in startingTasks || c !in runningTasks {
        Holds(c);
      }
      chats := [];
      var todo := startingTasks.Keys;
      while todo != {}
        invariant todo <= startingTasks.Keys
        invariant forall c :: c in chats <==> c in startingTasks && c !in todo
        invariant Distinct(chats)
        decreases todo
      {
        var c :| c in todo;
        todo := todo - {c};
        chats := chats + [c];
      }
      todo := runningTasks.Keys;
      while todo != {}
        invariant todo <= runningTasks.Keys && startingTasks.Keys !! runningTasks.Keys
        invariant forall c :: c in chats <==> c in startingTasks || (c in runningTasks && c !in todo)
        invariant Distinct(chats)
        decreases todo
      {
        var c :| c in todo;
        todo := todo - {c};
        chats := chats + [c];
      }
    }
  }

  predicate Distinct<T(==)>(xs: seq<T>) {
    forall i, j :: 0 <= i < j < |xs| ==> xs[i] != xs[j]
  }
}
