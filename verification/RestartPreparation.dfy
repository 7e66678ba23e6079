/**
 Preparing a controlled restart: hold back all chats, note which are at work, tell them,
 and look again. Between the two looks the event loop runs anything but a cancellation.
 */
module RestartPreparation {
  import opened Common
  import opened TurnProtocol
  import opened MessageBridge
  import opened RestartPlan
  import opened Text

  const PLAN_TTL_MS := 24 * 60 * 60 * 1000

  class RegisteredBot {
    const platform: string
    const name: string
    const bridge: Bridge

    constructor (platform: string, name: string, bridge: Bridge)
      ensures this.platform == platform && this.name == name && this.bridge == bridge
    {
      this.platform, this.name, this.bridge := platform, name, bridge;
    }
  }

  // The registry holds a bot once for each platform and name, each with its own bridge.
  ghost predicate IsRegistry(bots: seq<RegisteredBot>) {
    forall i, j :: 0 <= i < j < |bots| ==>
      bots[i].bridge != bots[j].bridge && (bots[i].platform, bots[i].name) != (bots[j].platform, bots[j].name)
  }

  ghost predicate AllValid(bots: seq<RegisteredBot>)
    reads set i | 0 <= i < |bots| :: bots[i].bridge
  {
    forall i :: 0 <= i < |bots| ==> bots[i].bridge.Valid()
  }

  predicate Serves(bot: RegisteredBot, k: Key) {
    bot.platform == k.platform && bot.name == k.bot
  }

  // The chat is at work, starting or running, at a bot of the registry.
  ghost predicate AtWork(bots: seq<RegisteredBot>, k: Key)
    reads set i | 0 <= i < |bots| :: bots[i].bridge
  {
    exists i :: 0 <= i < |bots| && Serves(bots[i], k) && Busy(bots[i].bridge.View(k.chat))
  }

  predicate IsActive(ps: seq<Participant>, k: Key) {
    exists i :: 0 <= i < |ps| && ps[i].key == k && ps[i].wasActive
  }

  predicate TakesPart(ps: seq<Participant>, k: Key) {
    exists i :: 0 <= i < |ps| && ps[i].key == k
  }

  // ---------- Between the two looks ----------

  lemma {:induction false} RunSplit(s: State, a: seq<Event>, b: seq<Event>)
    ensures Run(s, a + b) == Run(Run(s, a), b)
  {
    if b == [] {
      assert a + b == a;
    } else {
      assert (a + b)[..|a + b| - 1] == a + b[..|b| - 1];
      RunSplit(s, a, b[..|b| - 1]);
    }
  }

  // `mark` is a history of the chat, after which it was held back and never let go.
  predicate HeldSince(mark: seq<Event>, history: seq<Event>) {
    && mark <= history && Run(INITIAL, mark).quiesce.Some?
    && forall e :: e in history[|mark|..] ==> !e.CancelQuiesce?
  }

  // A chat that was idle when it was held back is idle still.
  lemma HeldChatsOnlyDrain(mark: seq<Event>, history: seq<Event>)
    requires HeldSince(mark, history)
    ensures Busy(Run(INITIAL, history)) ==> Busy(Run(INITIAL, mark))
    ensures Run(INITIAL, history).quiesce.Some?
  {
    assert history == mark + history[|mark|..];
    RunSplit(INITIAL, mark, history[|mark|..]);
    QuiescedChatsOnlyDrain(Run(INITIAL, mark), history[|mark|..]);
  }

  // The chats at work at the first look take part as active.
  ghost predicate NotesAtWork(bots: seq<RegisteredBot>, ps: seq<Participant>, mark: Key -> seq<Event>) {
    forall k :: IsActive(ps, k) <==>
                exists i :: 0 <= i < |bots| && Serves(bots[i], k) && Busy(Run(INITIAL, mark(k)))
  }

  // ---------- The two looks ----------

  // The chats at work at a bot.
  method CollectFrom(bot: RegisteredBot, cards: Key -> bool, before: map<Key, Participant>)
    returns (after: map<Key, Participant>)
    requires bot.bridge.Valid() && forall k :: k in before ==> before[k].key == k
    ensures forall k :: k in after ==> after[k].key == k
    ensures forall k :: k in after && after[k].wasActive <==>
                        (k in before && before[k].wasActive) || (Serves(bot, k) && Busy(bot.bridge.View(k.chat)))
    ensures forall k :: k in after && !after[k].wasActive ==> k in before
  {
    var chats := bot.bridge.GetRestartTaskSnapshots();
    after := before;
    for i := 0 to |chats|
      invariant forall k :: k in after ==> after[k].key == k
      invariant forall k :: k in after && after[k].wasActive <==>
                            (k in before && before[k].wasActive) || (Serves(bot, k) && k.chat in chats[..i])
      invariant forall k :: k in after && !after[k].wasActive ==> k in before
    {
      var key := Key(bot.platform, bot.name, chats[i]);
      after := after[key := Participant(key, true, cards(key), None, None, None, None)];
      assert chats[..i + 1] == chats[..i] + [chats[i]];
    }
    assert chats[..|chats|] == chats;
  }

  method CollectAtWork(bots: seq<RegisteredBot>, cards: Key -> bool) returns (found: map<Key, Participant>)
    requires AllValid(bots)
    ensures forall k :: k in found ==> found[k].key == k && found[k].wasActive
    ensures forall k :: k in found <==> AtWork(bots, k)
  {
    found := map[];
    for i := 0 to |bots|
      invariant forall k :: k in found ==> found[k].key == k && found[k].wasActive
      invariant forall k :: k in found <==> exists j :: 0 <= j < i && Serves(bots[j], k) && Busy(bots[j].bridge.View(k.chat))
    {
      found := CollectFrom(bots[i], cards, found);
    }
  }

  // The chat of the first bot with the requester's name.
  method RequesterKey(bots: seq<RegisteredBot>, requesterBot: Option<string>, requesterChat: Option<string>)
    returns (key: Option<Key>)
    ensures key.Some? <==>
              requesterBot.Some? && requesterChat.Some? && exists i :: 0 <= i < |bots| && bots[i].name == requesterBot.value
    ensures key.Some? ==> Some(key.value.bot) == requesterBot && Some(key.value.chat) == requesterChat
  {
    if requesterBot.None? || requesterChat.None? {
      return None;
    }
    for i := 0 to |bots|
      invariant forall j :: 0 <= j < i ==> bots[j].name != requesterBot.value
    {
      if bots[i].name == requesterBot.value {
        return Some(Key(bots[i].platform, bots[i].name, requesterChat.value));
      }
    }
    key := None;
  }

  // All chats at work, and the chat that asked for the restart.
  method CollectParticipants(bots: seq<RegisteredBot>, requesterBot: Option<string>, requesterChat: Option<string>,
                             cards: Key -> bool)
    returns (ps: seq<Participant>)
    requires AllValid(bots)
    ensures DistinctKeys(ps)
    ensures forall k :: IsActive(ps, k) <==> AtWork(bots, k)
    ensures forall i :: 0 <= i < |ps| && !ps[i].wasActive ==>
              Some(ps[i].key.bot) == requesterBot && Some(ps[i].key.chat) == requesterChat
    ensures (requesterBot.Some? && requesterChat.Some? && exists i :: 0 <= i < |bots| && bots[i].name == requesterBot.value)
            ==> exists k: Key :: k.bot == requesterBot.value && k.chat == requesterChat.value && TakesPart(ps, k)
  {
    var found := CollectAtWork(bots, cards);
    var asked := RequesterKey(bots, requesterBot, requesterChat);
    if asked.Some? && asked.value !in found {
      found := found[asked.value := Participant(asked.value, false, true, None, None, None, None)];
    }
    ps := Values(found);
    if asked.Some? {
      assert TakesPart(ps, asked.value);
    }
  }

  method Values(m: map<Key, Participant>) returns (ps: seq<Participant>)
    requires forall k :: k in m ==> m[k].key == k
    ensures DistinctKeys(ps)
    ensures forall i :: 0 <= i < |ps| ==> ps[i].key in m && m[ps[i].key] == ps[i]
    ensures forall k :: k in m ==> TakesPart(ps, k)
    ensures forall k :: IsActive(ps, k) <==> k in m && m[k].wasActive
  {
    ps := [];
    var todo := m.Keys;
    while todo != {}
      invariant todo <= m.Keys && DistinctKeys(ps)
      invariant forall i :: 0 <= i < |ps| ==> ps[i].key in m && ps[i].key !in todo && m[ps[i].key] == ps[i]
      invariant forall k :: k in m && k !in todo ==> TakesPart(ps, k)
      decreases |todo|
    {
      var k :| k in todo;
      todo := todo - {k};
      ghost var before := ps;
      ps := ps + [m[k]];
      assert ps[|before|].key == k;
      forall j | j in m && j !in todo ensures TakesPart(ps, j) {
        if j != k {
          var i :| 0 <= i < |before| && before[i].key == j;
          assert ps[i].key == j;
        }
      }
    }
  }

  // Looks again: a participant is active while its chat is at work.
  method RefreshParticipants(bots: seq<RegisteredBot>, ps: seq<Participant>) returns (refreshed: seq<Participant>)
    requires AllValid(bots)
    ensures |refreshed| == |ps|
    ensures forall i :: 0 <= i < |ps| ==> refreshed[i] == ps[i].(wasActive := AtWork(bots, ps[i].key))
  {
    var active: set<Key> := {};
    for i := 0 to |bots|
      invariant forall k :: k in active <==>
                            exists j :: 0 <= j < i && Serves(bots[j], k) && Busy(bots[j].bridge.View(k.chat))
    {
      var chats := bots[i].bridge.GetRestartTaskSnapshots();
      active := active + set j | 0 <= j < |chats| :: Key(bots[i].platform, bots[i].name, chats[j]);
    }
    refreshed := [];
    for i := 0 to |ps|
      invariant |refreshed| == i
      invariant forall j :: 0 <= j < i ==> refreshed[j] == ps[j].(wasActive := AtWork(bots, ps[j].key))
    {
      refreshed := refreshed + [ps[i].(wasActive := ps[i].key in active)];
    }
  }

  // ---------- The protocol ----------

  // An empty requester counts as none.
  datatype Request = Request(
    requestId: string, requesterBot: Option<string>, requesterChat: Option<string>, resume: bool, force: bool)

  // `Refused` throws; `Reused` returns the plan of an earlier call.
  datatype Outcome = Refused | Reused(plan: Plan) | Begun(plan: Plan)

  method QuiesceAll(bots: seq<RegisteredBot>, requestId: string)
    requires IsRegistry(bots) && AllValid(bots)
    modifies set i | 0 <= i < |bots| :: bots[i].bridge
    ensures AllValid(bots)
    ensures forall i, c :: 0 <= i < |bots| ==>
              bots[i].bridge.history(c) == old(bots[i].bridge.history)(c) + [BeginQuiesce(requestId)]
  {
    var i := 0;
    while i < |bots|
      invariant 0 <= i <= |bots| && AllValid(bots)
      invariant forall j, c :: 0 <= j < i ==>
        bots[j].bridge.history(c) == old(bots[j].bridge.history)(c) + [BeginQuiesce(requestId)]
      invariant forall j :: i <= j < |bots| ==> unchanged(bots[j].bridge)
    {
      bots[i].bridge.BeginRestartQuiesce(requestId);
      i := i + 1;
    }
  }

  method ReleaseQuiesceAll(bots: seq<RegisteredBot>, requestId: string)
    requires IsRegistry(bots) && AllValid(bots)
    modifies set i | 0 <= i < |bots| :: bots[i].bridge
    ensures AllValid(bots)
    ensures forall i, c :: 0 <= i < |bots| ==>
              bots[i].bridge.history(c) == old(bots[i].bridge.history)(c) + [CancelQuiesce(requestId)]
  {
    var i := 0;
    while i < |bots|
      invariant 0 <= i <= |bots| && AllValid(bots)
      invariant forall j, c :: 0 <= j < i ==>
        bots[j].bridge.history(c) == old(bots[j].bridge.history)(c) + [CancelQuiesce(requestId)]
      invariant forall j :: i <= j < |bots| ==> unchanged(bots[j].bridge)
    {
      bots[i].bridge.CancelRestartQuiesce(requestId);
      i := i + 1;
    }
  }

  // Whether an earlier plan keeps a new request out.
  predicate InTheWay(existing: Option<Plan>, requestId: string, now: int) {
    existing.Some? && existing.value.requestId != requestId
    && existing.value.status != Completed && existing.value.status != Cancelled
    && now - existing.value.updatedAt <= PLAN_TTL_MS
  }

  // A letter or digit, then up to 127 characters more.
  predicate IsRequestId(s: string) {
    IsIdText(s) && s[0] !in "._:-"
  }

  // The block up to the notices.
  method Begin(bots: seq<RegisteredBot>, request: Request, existing: Option<Plan>, cards: Key -> bool, now: int)
    returns (out: Outcome)
    requires IsRegistry(bots) && AllValid(bots)
    modifies set i | 0 <= i < |bots| :: bots[i].bridge
    ensures AllValid(bots)
    ensures out.Refused? <==>
              || !IsRequestId(request.requestId)
              || request.requesterBot.Some? != request.requesterChat.Some?
              || (request.requesterBot.Some? && forall i :: 0 <= i < |bots| ==> bots[i].name != request.requesterBot.value)
              || (existing.Some? && existing.value.requestId == request.requestId && existing.value.status != Prepared)
              || InTheWay(existing, request.requestId, now)
    ensures forall i, c :: 0 <= i < |bots| ==>
              bots[i].bridge.history(c)
              == old(bots[i].bridge.history)(c) + if out.Refused? then [] else [BeginQuiesce(request.requestId)]
    ensures out.Reused? ==> existing == Some(out.plan)
                            && out.plan.requestId == request.requestId && out.plan.status == Prepared
    ensures out.Begun? ==> out.plan.status == Preparing && out.plan.requestId == request.requestId
                           && out.plan.force == request.force && DistinctKeys(out.plan.participants)
                           && forall k :: IsActive(out.plan.participants, k) <==> AtWork(bots, k)
  {
    if !IsRequestId(request.requestId) {
      return Refused;
    }
    if request.requesterBot.Some? != request.requesterChat.Some? {
      return Refused;
    }
    if request.requesterBot.Some? && forall i :: 0 <= i < |bots| ==> bots[i].name != request.requesterBot.value {
      return Refused;
    }
    if existing.Some? && existing.value.requestId == request.requestId {
      if existing.value.status != Prepared {
        return Refused;
      }
      QuiesceAll(bots, request.requestId);
      return Reused(existing.value);
    }
    if InTheWay(existing, request.requestId, now) {
      return Refused;
    }
    QuiesceAll(bots, request.requestId);
    var ps := CollectParticipants(bots, request.requesterBot, request.requesterChat, cards);
    out := Begun(Plan(request.requestId, Preparing, request.resume, request.force, ps, now));
  }

  // What the first look noted, and that nobody let the chats go since.
  ghost predicate StillHeld(bots: seq<RegisteredBot>, ps: seq<Participant>, mark: Key -> seq<Event>)
    reads set i | 0 <= i < |bots| :: bots[i].bridge
  {
    && (forall i, k :: 0 <= i < |bots| && Serves(bots[i], k) ==> HeldSince(mark(k), bots[i].bridge.history(k.chat)))
    && NotesAtWork(bots, ps, mark)
  }

  // So it is right after the first look.
  lemma HeldFromTheStart(bots: seq<RegisteredBot>, ps: seq<Participant>, mark: Key -> seq<Event>, requestId: string)
    requires AllValid(bots) && forall k :: IsActive(ps, k) <==> AtWork(bots, k)
    requires forall i, k :: 0 <= i < |bots| && Serves(bots[i], k) ==> mark(k) == bots[i].bridge.history(k.chat)
    requires forall i, c :: 0 <= i < |bots| ==>
               var h := bots[i].bridge.history(c); h != [] && h[|h| - 1] == BeginQuiesce(requestId)
    ensures StillHeld(bots, ps, mark)
  {
  }

  // Nothing is lost in between: who is at work at the second look took part, as active,
  // since the first.
  lemma AtWorkWasNoted(bots: seq<RegisteredBot>, ps: seq<Participant>, mark: Key -> seq<Event>, k: Key)
    requires AllValid(bots) && StillHeld(bots, ps, mark) && AtWork(bots, k)
    ensures IsActive(ps, k)
  {
    var i :| 0 <= i < |bots| && Serves(bots[i], k) && Busy(bots[i].bridge.View(k.chat));
    HeldChatsOnlyDrain(mark(k), bots[i].bridge.history(k.chat));
  }

  // The block after the notices. The active participants of a plan that becomes prepared
  // are exactly the chats then at work; a notice that failed cancels the plan and lets the
  // chats go, unless the restart is forced.
  method Finish(bots: seq<RegisteredBot>, plan: Plan, notices: seq<Notice>, now: int, ghost mark: Key -> seq<Event>)
    returns (out: Plan)
    requires IsRegistry(bots) && AllValid(bots) && |notices| == |plan.participants|
    requires StillHeld(bots, plan.participants, mark)
    modifies set i | 0 <= i < |bots| :: bots[i].bridge
    ensures AllValid(bots)
    ensures out.status == if !plan.force && Undelivered in notices then Cancelled else Prepared
    ensures forall k :: IsActive(out.participants, k) <==> old(AtWork(bots, k))
    ensures |out.participants| == |plan.participants|
    ensures forall i :: 0 <= i < |notices| ==>
              out.participants[i].key == plan.participants[i].key && out.participants[i].prepareNotice == Some(notices[i])
    ensures forall i, c :: 0 <= i < |bots| ==>
              bots[i].bridge.history(c)
              == old(bots[i].bridge.history)(c) + if out.status == Prepared then [] else [CancelQuiesce(plan.requestId)]
  {
    var noted := seq(|notices|, i requires 0 <= i < |notices| => plan.participants[i].(prepareNotice := Some(notices[i])));
    var refreshed := RefreshParticipants(bots, noted);
    forall k ensures IsActive(refreshed, k) <==> AtWork(bots, k) {
      if AtWork(bots, k) {
        AtWorkWasNoted(bots, plan.participants, mark, k);
        var i :| 0 <= i < |plan.participants| && plan.participants[i].key == k && plan.participants[i].wasActive;
        assert refreshed[i].key == k && refreshed[i].wasActive;
      }
    }
    out := plan.(status := Prepared, participants := refreshed, updatedAt := now);
    if Undelivered in notices && !plan.force {
      out := out.(status := Cancelled);
      ReleaseQuiesceAll(bots, plan.requestId);
    }
  }
}
