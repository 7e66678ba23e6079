/**
 Background activity of a chat is held back while the chat is busy. An entry collects what
 arrives meanwhile and is handed to delivery when the chat is free, or at the deadline.
 Timers fire on time: the clock never passes one that is armed. Bodies are trimmed.
 */
module DeferredDelivery {
  import opened Common

  datatype Config = Config(initialDelay: nat, maxDelay: nat, maxDeferral: nat, maxItems: nat, coalesce: nat)

  // `accepted` is every body the entry took, `bodies` the ones it still holds.
  datatype Entry = Entry(
    bodies: seq<string>, omitted: nat, firstQueuedAt: int, retryCount: nat, timer: Option<int>, accepted: seq<string>)

  // Delays are positive.
  predicate Positive(config: Config) {
    config.initialDelay > 0 && config.maxDelay > 0
  }

  // ---------- Single steps on an entry ----------

  function Pow2(n: nat): (p: nat)
    ensures p >= 1
  {
    if n == 0 then 1 else 2 * Pow2(n - 1)
  }

  function AddBody(config: Config, e: Entry, body: string): Entry {
    if body in e.bodies then e
    else if |e.bodies| + 1 > config.maxItems then
      e.(bodies := (e.bodies + [body])[1..], omitted := e.omitted + 1, accepted := e.accepted + [body])
    else e.(bodies := e.bodies + [body], accepted := e.accepted + [body])
  }

  function Delay(config: Config, retryCount: nat, remaining: int): int {
    Min(Min(config.initialDelay * Pow2(Min(retryCount, 10)), config.maxDelay), remaining)
  }

  function Defer(config: Config, e: Entry, now: int, remaining: int): Entry {
    e.(retryCount := e.retryCount + 1, timer := Some(now + Delay(config, e.retryCount, remaining)))
  }

  // What stays queued and what is handed to delivery.
  function Flush(config: Config, e: Entry, now: int, busy: bool): (Option<Entry>, Option<Entry>) {
    var idle := e.(timer := None);
    var elapsed := now - e.firstQueuedAt;
    if busy && elapsed < config.maxDeferral then (Some(Defer(config, idle, now, config.maxDeferral - elapsed)), None)
    else (None, Some(idle))
  }

  function Enqueue(config: Config, current: Option<Entry>, body: string, now: int, busy: bool)
    : (Option<Entry>, Option<Entry>)
  {
    if body == "" then (current, None)
    else
      var e := AddBody(config, current.GetOr(Entry([], 0, now, 0, None, [])), body);
      if e.timer.Some? then (Some(e), None)
      else if config.coalesce > 0 then (Some(e.(timer := Some(now + config.coalesce))), None)
      else Flush(config, e, now, busy)
  }

  // A delivery failed: within the window the entry is queued again.
  function Requeue(config: Config, e: Entry, now: int): Option<Entry> {
    var elapsed := now - e.firstQueuedAt;
    if elapsed < config.maxDeferral then Some(Defer(config, e, now, config.maxDeferral - elapsed)) else None
  }

  // ---------- The chat ----------

  datatype Handed = Handed(entry: Entry, at: int)

  // `flying` are the entries whose delivery is awaited. An entry that a failed delivery
  // overwrites is lost, but its timer stays armed, in `strays`.
  datatype Chat = Chat(
    now: int, current: Option<Entry>, flying: seq<Entry>, strays: seq<int>,
    handed: seq<Handed>, delivered: seq<Entry>, givenUp: seq<Entry>, overwritten: seq<Entry>)

  datatype Event =
    | Arrive(body: string, busy: bool)
    | Advance(to: int)
    | Fire(busy: bool)
    | FireStray(stray: nat, busy: bool)
    | Deliver(flight: nat)
    | Fail(flight: nat)

  function After(c: Chat, kept: Option<Entry>, out: Option<Entry>): Chat {
    match out
    case None => c.(current := kept)
    case Some(e) => c.(current := kept, flying := c.flying + [e], handed := c.handed + [Handed(e, c.now)])
  }

  function Land(c: Chat, i: nat): Chat
    requires i < |c.flying|
  {
    c.(flying := c.flying[..i] + c.flying[i + 1..])
  }

  predicate OnTime(c: Chat, to: int) {
    && c.now <= to
    && (c.current.Some? && c.current.value.timer.Some? ==> to <= c.current.value.timer.value)
    && forall i :: 0 <= i < |c.strays| ==> to <= c.strays[i]
  }

  function Step(config: Config, c: Chat, e: Event): Chat {
    match e
    case Arrive(body, busy) =>
      var (kept, out) := Enqueue(config, c.current, body, c.now, busy);
      After(c, kept, out)
    case Advance(to) => if OnTime(c, to) then c.(now := to) else c
    case Fire(busy) =>
      if c.current.Some? && c.current.value.timer == Some(c.now) then
        var (kept, out) := Flush(config, c.current.value, c.now, busy);
        After(c, kept, out)
      else c
    case FireStray(i, busy) =>
      if i < |c.strays| && c.strays[i] == c.now then
        var d := c.(strays := c.strays[..i] + c.strays[i + 1..]);
        if c.current.None? then d
        else
          var (kept, out) := Flush(config, c.current.value, c.now, busy);
          After(d, kept, out)
      else c
    case Deliver(i) =>
      if i < |c.flying| then Land(c, i).(delivered := c.delivered + [c.flying[i]]) else c
    case Fail(i) =>
      if i >= |c.flying| then c
      else
        (match Requeue(config, c.flying[i], c.now)
         case None => Land(c, i).(givenUp := c.givenUp + [c.flying[i]])
         case Some(again) =>
           var d := Land(c, i).(current := Some(again));
           if c.current.None? then d
           else d.(overwritten := c.overwritten + [c.current.value],
                   strays := c.strays + if c.current.value.timer.Some? then [c.current.value.timer.value] else []))
  }

  function Start(now: int): Chat {
    Chat(now, None, [], [], [], [], [], [])
  }

  function Run(config: Config, now: int, events: seq<Event>): Chat {
    if events == [] then Start(now)
    else Step(config, Run(config, now, events[..|events| - 1]), events[|events| - 1])
  }

  lemma RunSnoc(config: Config, now: int, events: seq<Event>, e: Event)
    ensures Run(config, now, events + [e]) == Step(config, Run(config, now, events), e)
  {
  }

  lemma RunOfThree(config: Config, now: int, a: Event, b: Event, c: Event)
    ensures Run(config, now, [a, b, c]) == Step(config, Step(config, Step(config, Start(now), a), b), c)
  {
    RunSnoc(config, now, [], a);
    RunSnoc(config, now, [a], b);
    RunSnoc(config, now, [a, b], c);
    assert [a, b, c] == [a, b] + [c] && [a, b] == [a] + [b] && [a] == [] + [a];
  }

  // ---------- Time goes on ----------

  function DueStrays(strays: seq<int>, now: int): nat {
    if strays == [] then 0
    else DueStrays(strays[..|strays| - 1], now) + if strays[|strays| - 1] == now then 1 else 0
  }

  // How many timers are due.
  function Due(c: Chat): nat {
    DueStrays(c.strays, c.now) + if c.current.Some? && c.current.value.timer == Some(c.now) then 1 else 0
  }

  lemma {:induction false} DueStraysJoin(a: seq<int>, b: seq<int>, now: int)
    ensures DueStrays(a + b, now) == DueStrays(a, now) + DueStrays(b, now)
  {
    if b == [] {
      assert a + b == a;
    } else {
      assert (a + b)[..|a + b| - 1] == a + b[..|b| - 1];
      DueStraysJoin(a, b[..|b| - 1], now);
    }
  }

  lemma DueStraysWithout(strays: seq<int>, i: nat, now: int)
    requires i < |strays| && strays[i] == now
    ensures DueStrays(strays, now) == DueStrays(strays[..i] + strays[i + 1..], now) + 1
  {
    DueStraysJoin(strays[..i], strays[i..], now);
    DueStraysJoin([strays[i]], strays[i + 1..], now);
    DueStraysJoin(strays[..i], strays[i + 1..], now);
    assert DueStrays([strays[i]], now) == 1;
    assert strays == strays[..i] + strays[i..] && strays[i..] == [strays[i]] + strays[i + 1..];
  }

  lemma {:induction false} DueStrayIsThere(strays: seq<int>, now: int)
    ensures DueStrays(strays, now) == 0 <==> forall i :: 0 <= i < |strays| ==> strays[i] != now
  {
    if strays != [] {
      DueStrayIsThere(strays[..|strays| - 1], now);
      assert strays == strays[..|strays| - 1] + [strays[|strays| - 1]];
    }
  }

  predicate TimerFires(c: Chat, e: Event) {
    || (e.Fire? && c.current.Some? && c.current.value.timer == Some(c.now))
    || (e.FireStray? && e.stray < |c.strays| && c.strays[e.stray] == c.now)
  }

  // No timer lies in the past.
  predicate Ahead(c: Chat) {
    && (c.current.Some? && c.current.value.timer.Some? ==> c.now <= c.current.value.timer.value)
    && forall i :: 0 <= i < |c.strays| ==> c.now <= c.strays[i]
  }

  lemma AfterFlush(config: Config, e: Entry, now: int, busy: bool)
    requires Positive(config)
    ensures var (kept, _) := Flush(config, e, now, busy);
            kept.Some? ==> kept.value.timer.Some? && kept.value.timer.value > now
  {
    DelayIsPositive(config, e.retryCount, config.maxDeferral - (now - e.firstQueuedAt));
  }

  // Whichever due timer fires, and whatever the chat answers, fewer are due afterwards.
  lemma FiringUsesUpTheDue(config: Config, c: Chat, e: Event)
    requires Positive(config) && TimerFires(c, e)
    ensures Due(Step(config, c, e)) < Due(c)
  {
    if e.FireStray? {
      DueStraysWithout(c.strays, e.stray, c.now);
    }
    if c.current.Some? {
      AfterFlush(config, c.current.value, c.now, e.busy);
    }
  }

  // Time can move on exactly when no timer is due, and some due timer can fire otherwise.
  lemma NothingDueIff(c: Chat)
    requires Ahead(c)
    ensures Due(c) == 0 <==> OnTime(c, c.now + 1)
    ensures Due(c) > 0 <==> exists i :: TimerFires(c, Fire(true)) || TimerFires(c, FireStray(i, true))
  {
    DueStrayIsThere(c.strays, c.now);
    if i: nat :| 0 <= i < |c.strays| && c.strays[i] == c.now {
      assert TimerFires(c, FireStray(i, true));
    }
  }

  lemma StepKeepsAhead(config: Config, c: Chat, e: Event)
    requires Positive(config) && Ahead(c)
    ensures Ahead(Step(config, c, e))
  {
    if e.Arrive? && e.body != "" {
      AfterFlush(config, AddBody(config, c.current.GetOr(Entry([], 0, c.now, 0, None, [])), e.body), c.now, e.busy);
    } else if (e.Fire? || e.FireStray?) && c.current.Some? {
      AfterFlush(config, c.current.value, c.now, e.busy);
    } else if e.Fail? && e.flight < |c.flying| {
      DelayIsPositive(config, c.flying[e.flight].retryCount,
                      config.maxDeferral - (c.now - c.flying[e.flight].firstQueuedAt));
    }
  }

  lemma {:induction false} AlwaysAhead(config: Config, now: int, events: seq<Event>)
    requires Positive(config)
    ensures Ahead(Run(config, now, events))
  {
    if events != [] {
      AlwaysAhead(config, now, events[..|events| - 1]);
      StepKeepsAhead(config, Run(config, now, events[..|events| - 1]), events[|events| - 1]);
    }
  }

  predicate IsTime(e: Event) {
    e.Advance? || e.Fire? || e.FireStray?
  }

  // Fewer timers due, or later by one.
  predicate Closer(c: Chat, d: Chat) {
    d.now == c.now + 1 || (d.now == c.now && Due(d) < Due(c))
  }

  lemma SomethingBringsCloser(config: Config, c: Chat)
    requires Positive(config) && Ahead(c)
    ensures exists e :: IsTime(e) && Closer(c, Step(config, c, e))
  {
    NothingDueIff(c);
    var e := Advance(c.now + 1);
    if Due(c) > 0 {
      var i :| TimerFires(c, Fire(true)) || TimerFires(c, FireStray(i, true));
      e := if TimerFires(c, Fire(true)) then Fire(true) else FireStray(i, true);
      FiringUsesUpTheDue(config, c, e);
    }
    assert IsTime(e) && Closer(c, Step(config, c, e));
  }

  ghost predicate Reaches(config: Config, now: int, events: seq<Event>, more: seq<Event>, time: int) {
    (forall e :: e in more ==> IsTime(e)) && Run(config, now, events + more).now == time
  }

  lemma OneMoreEvent(config: Config, now: int, events: seq<Event>, e: Event, more: seq<Event>, time: int)
    requires IsTime(e) && Reaches(config, now, events + [e], more, time)
    ensures Reaches(config, now, events, [e] + more, time)
  {
    assert events + [e] + more == events + ([e] + more);
  }

  // From every state a run can reach, timers that fire lead to every later time.
  lemma {:induction false} TimeNeverStops(config: Config, now: int, events: seq<Event>, time: int)
    requires Positive(config) && Run(config, now, events).now <= time
    ensures exists more :: Reaches(config, now, events, more, time)
    decreases time - Run(config, now, events).now, Due(Run(config, now, events))
  {
    var c := Run(config, now, events);
    if c.now == time {
      assert events + [] == events;
      assert Reaches(config, now, events, [], time);
    } else {
      AlwaysAhead(config, now, events);
      SomethingBringsCloser(config, c);
      var e :| IsTime(e) && Closer(c, Step(config, c, e));
      RunSnoc(config, now, events, e);
      TimeNeverStops(config, now, events + [e], time);
      var more :| Reaches(config, now, events + [e], more, time);
      OneMoreEvent(config, now, events, e, more, time);
    }
  }

  // ---------- The deadline ----------

  function Deadline(config: Config, e: Entry): int {
    e.firstQueuedAt + Max(config.coalesce, config.maxDeferral)
  }

  // An entry that waits, with its timer.
  predicate Waits(config: Config, e: Entry, now: int) {
    && e.firstQueuedAt <= now && e.timer.Some? && now <= e.timer.value <= Deadline(config, e)
  }

  // A queued entry has its timer armed, neither in the past nor after its deadline, and
  // what was handed over was so in time.
  predicate InTime(config: Config, c: Chat) {
    && (c.current.Some? ==> Waits(config, c.current.value, c.now))
    && (forall i :: 0 <= i < |c.flying| ==> c.flying[i].timer.None? && c.flying[i].firstQueuedAt <= c.now)
    && (forall i :: 0 <= i < |c.handed| ==> c.handed[i].at <= Deadline(config, c.handed[i].entry))
  }

  lemma DelayIsPositive(config: Config, retryCount: nat, remaining: int)
    requires Positive(config)
    ensures Min(Min(config.initialDelay, config.maxDelay), remaining) <= Delay(config, retryCount, remaining) <= remaining
  {
  }

  lemma FlushInTime(config: Config, e: Entry, now: int, busy: bool)
    requires Positive(config) && e.firstQueuedAt <= now <= Deadline(config, e)
    ensures var (kept, out) := Flush(config, e, now, busy);
            && (kept.Some? ==> Waits(config, kept.value, now))
            && (out.Some? ==> out.value == e.(timer := None))
  {
  }

  lemma EnqueueInTime(config: Config, current: Option<Entry>, body: string, now: int, busy: bool)
    requires Positive(config) && (current.Some? ==> Waits(config, current.value, now))
    ensures var (kept, out) := Enqueue(config, current, body, now, busy);
            && (kept.Some? ==> Waits(config, kept.value, now))
            && (out.Some? ==> out.value.timer.None? && out.value.firstQueuedAt <= now <= Deadline(config, out.value))
  {
  }

  lemma RequeueInTime(config: Config, e: Entry, now: int)
    requires Positive(config) && e.firstQueuedAt <= now
    ensures Requeue(config, e, now).Some? ==> Waits(config, Requeue(config, e, now).value, now)
  {
  }

  lemma StepKeepsInTime(config: Config, c: Chat, e: Event)
    requires Positive(config) && InTime(config, c)
    ensures InTime(config, Step(config, c, e))
  {
    if e.Arrive? {
      EnqueueInTime(config, c.current, e.body, c.now, e.busy);
    } else if (e.Fire? || e.FireStray?) && c.current.Some? {
      FlushInTime(config, c.current.value, c.now, e.busy);
    } else if e.Fail? && e.flight < |c.flying| {
      RequeueInTime(config, c.flying[e.flight], c.now);
    }
  }

  // Every entry is handed to delivery by its deadline, whatever the chat answers.
  lemma {:induction false} AlwaysInTime(config: Config, now: int, events: seq<Event>)
    requires Positive(config)
    ensures InTime(config, Run(config, now, events))
  {
    if events != [] {
      AlwaysInTime(config, now, events[..|events| - 1]);
      StepKeepsInTime(config, Run(config, now, events[..|events| - 1]), events[|events| - 1]);
    }
  }

  predicate HandedWithin(c: Chat, ms: nat) {
    forall i :: 0 <= i < |c.handed| ==> c.handed[i].at <= c.handed[i].entry.firstQueuedAt + ms
  }

  // The promised bound, `maxDeferral` after the first body, is kept in every run exactly
  // when the coalescing delay is no longer than that.
  lemma PromiseKeptIff(config: Config, now: int)
    requires Positive(config)
    ensures (forall events :: HandedWithin(Run(config, now, events), config.maxDeferral))
            <==> config.coalesce <= config.maxDeferral
  {
    if config.coalesce <= config.maxDeferral {
      forall events ensures HandedWithin(Run(config, now, events), config.maxDeferral) {
        AlwaysInTime(config, now, events);
      }
    } else {
      var (arrive, wait, fire) := (Arrive("a", true), Advance(now + config.coalesce), Fire(true));
      RunOfThree(config, now, arrive, wait, fire);
      var queued := Step(config, Start(now), arrive);
      assert queued.current.Some? && queued.current.value.timer == Some(now + config.coalesce);
      var waited := Step(config, queued, wait);
      assert waited == queued.(now := now + config.coalesce);
      var c := Run(config, now, [arrive, wait, fire]);
      assert |c.handed| == 1 && c.handed[0].at == c.handed[0].entry.firstQueuedAt + config.coalesce;
      assert !HandedWithin(c, config.maxDeferral);
    }
  }

  // ---------- How often an entry is deferred ----------

  function Pace(config: Config): nat {
    Min(config.initialDelay, config.maxDelay)
  }

  // After r deferrals at least r shortest delays have passed, or the whole window has.
  predicate Late(config: Config, e: Entry, time: int) {
    time - e.firstQueuedAt >= Min(e.retryCount * Pace(config), config.maxDeferral)
  }

  predicate FewDeferrals(config: Config, e: Entry) {
    e.retryCount == 0 || (e.retryCount - 1) * Pace(config) < config.maxDeferral
  }

  predicate Paced(config: Config, c: Chat) {
    && c.strays == []
    && (c.current.Some? ==> FewDeferrals(config, c.current.value)
                            && c.current.value.timer.Some? && Late(config, c.current.value, c.current.value.timer.value))
    && (forall i :: 0 <= i < |c.flying| ==> FewDeferrals(config, c.flying[i]) && Late(config, c.flying[i], c.now))
    && (forall i :: 0 <= i < |c.handed| ==> FewDeferrals(config, c.handed[i].entry))
  }

  lemma OneMorePace(config: Config, n: nat)
    ensures (n + 1) * Pace(config) == n * Pace(config) + Pace(config)
  {
  }

  lemma DeferIsPaced(config: Config, e: Entry, now: int)
    requires Positive(config) && Late(config, e, now) && now - e.firstQueuedAt < config.maxDeferral
    ensures var d := Defer(config, e, now, config.maxDeferral - (now - e.firstQueuedAt));
            d.timer.Some? && Late(config, d, d.timer.value) && FewDeferrals(config, d)
  {
    var remaining := config.maxDeferral - (now - e.firstQueuedAt);
    var delay := Delay(config, e.retryCount, remaining);
    var (passed, more) := (e.retryCount * Pace(config), (e.retryCount + 1) * Pace(config));
    DelayIsPositive(config, e.retryCount, remaining);
    OneMorePace(config, e.retryCount);
    assert passed < config.maxDeferral;
    assert now + delay - e.firstQueuedAt >= Min(more, config.maxDeferral);
  }

  lemma FlushIsPaced(config: Config, e: Entry, now: int, busy: bool)
    requires Positive(config) && Late(config, e, now) && FewDeferrals(config, e)
    ensures var (kept, out) := Flush(config, e, now, busy);
            && (kept.Some? ==> FewDeferrals(config, kept.value)
                               && kept.value.timer.Some? && Late(config, kept.value, kept.value.timer.value))
            && (out.Some? ==> FewDeferrals(config, out.value) && Late(config, out.value, now))
  {
    if busy && now - e.firstQueuedAt < config.maxDeferral {
      DeferIsPaced(config, e.(timer := None), now);
    }
  }

  lemma FailureKeepsPaced(config: Config, c: Chat, i: nat)
    requires Positive(config) && Paced(config, c) && Step(config, c, Fail(i)).overwritten == c.overwritten
    ensures Paced(config, Step(config, c, Fail(i)))
  {
    if i < |c.flying| && c.now - c.flying[i].firstQueuedAt < config.maxDeferral {
      DeferIsPaced(config, c.flying[i], c.now);
      OverwritesIff(config, c, Fail(i));
    }
  }

  lemma StepKeepsPaced(config: Config, c: Chat, e: Event)
    requires Positive(config) && Paced(config, c) && Step(config, c, e).overwritten == c.overwritten
    ensures Paced(config, Step(config, c, e))
  {
    if e.Fail? {
      FailureKeepsPaced(config, c, e.flight);
    } else if e.Arrive? && e.body != "" {
      var first := Entry([], 0, c.now, 0, None, []);
      FlushIsPaced(config, AddBody(config, first, e.body), c.now, e.busy);
    } else if e.Fire? && c.current.Some? && c.current.value.timer == Some(c.now) {
      FlushIsPaced(config, c.current.value, c.now, e.busy);
    }
  }

  // As long as no failed delivery overwrote a newer entry, an entry is deferred at most
  // once more than the shortest delay fits into the window.
  lemma {:induction false} DeferralsAreBounded(config: Config, now: int, events: seq<Event>)
    requires Positive(config) && Run(config, now, events).overwritten == []
    ensures Paced(config, Run(config, now, events))
  {
    if events != [] {
      var before := Run(config, now, events[..|events| - 1]);
      assert before.overwritten == [] by {
        assert before.overwritten <= Step(config, before, events[|events| - 1]).overwritten;
      }
      DeferralsAreBounded(config, now, events[..|events| - 1]);
      StepKeepsPaced(config, before, events[|events| - 1]);
    }
  }

  // ---------- Bodies ----------

  // Distinct, at most `maxItems`, and the latest of all the entry took.
  predicate Tidy(config: Config, e: Entry) {
    && (forall i, j :: 0 <= i < j < |e.bodies| ==> e.bodies[i] != e.bodies[j])
    && |e.bodies| <= config.maxItems
    && |e.accepted| == e.omitted + |e.bodies|
    && e.bodies == e.accepted[e.omitted..]
    && (e.omitted > 0 ==> |e.bodies| == config.maxItems)
  }

  predicate AllTidy(config: Config, es: seq<Entry>) {
    forall i :: 0 <= i < |es| ==> Tidy(config, es[i])
  }

  predicate TidyChat(config: Config, c: Chat) {
    && (c.current.Some? ==> Tidy(config, c.current.value))
    && AllTidy(config, c.flying) && AllTidy(config, c.delivered)
    && AllTidy(config, c.givenUp) && AllTidy(config, c.overwritten)
  }

  lemma AddKeepsTidy(config: Config, e: Entry, body: string)
    requires Tidy(config, e)
    ensures Tidy(config, AddBody(config, e, body))
  {
  }

  lemma EnqueueKeepsTidy(config: Config, c: Chat, body: string, busy: bool)
    requires TidyChat(config, c)
    ensures TidyChat(config, Step(config, c, Arrive(body, busy)))
  {
    AddKeepsTidy(config, c.current.GetOr(Entry([], 0, c.now, 0, None, [])), body);
  }

  lemma StepKeepsTidy(config: Config, c: Chat, e: Event)
    requires TidyChat(config, c)
    ensures TidyChat(config, Step(config, c, e))
  {
    if e.Arrive? {
      EnqueueKeepsTidy(config, c, e.body, e.busy);
    }
  }

  lemma {:induction false} AlwaysTidy(config: Config, now: int, events: seq<Event>)
    ensures TidyChat(config, Run(config, now, events))
  {
    if events != [] {
      AlwaysTidy(config, now, events[..|events| - 1]);
      StepKeepsTidy(config, Run(config, now, events[..|events| - 1]), events[|events| - 1]);
    }
  }

  // ---------- Nothing is lost silently ----------

  function Taken(es: seq<Entry>): nat {
    if es == [] then 0 else Taken(es[..|es| - 1]) + |es[|es| - 1].accepted|
  }

  function Held(c: Chat): nat {
    (if c.current.Some? then |c.current.value.accepted| else 0)
    + Taken(c.flying) + Taken(c.delivered) + Taken(c.givenUp) + Taken(c.overwritten)
  }

  // The bodies a run accepts: neither blank nor already waiting.
  predicate Accepts(c: Chat, e: Event) {
    e.Arrive? && e.body != "" && (c.current.Some? ==> e.body !in c.current.value.bodies)
  }

  function Accepted(config: Config, now: int, events: seq<Event>): nat {
    if events == [] then 0
    else
      var before := events[..|events| - 1];
      Accepted(config, now, before) + if Accepts(Run(config, now, before), events[|events| - 1]) then 1 else 0
  }

  lemma {:induction false} TakenJoin(a: seq<Entry>, b: seq<Entry>)
    ensures Taken(a + b) == Taken(a) + Taken(b)
  {
    if b == [] {
      assert a + b == a;
    } else {
      assert (a + b)[..|a + b| - 1] == a + b[..|b| - 1];
      TakenJoin(a, b[..|b| - 1]);
    }
  }

  lemma TakenOne(e: Entry)
    ensures Taken([e]) == |e.accepted|
  {
  }

  lemma TakenWithout(es: seq<Entry>, i: nat)
    requires i < |es|
    ensures Taken(es) == Taken(es[..i] + es[i + 1..]) + |es[i].accepted|
  {
    TakenJoin(es[..i], es[i..]);
    TakenJoin([es[i]], es[i + 1..]);
    TakenJoin(es[..i], es[i + 1..]);
    TakenOne(es[i]);
    assert es == es[..i] + es[i..] && es[i..] == [es[i]] + es[i + 1..];
  }

  lemma TakenMore(es: seq<Entry>, e: Entry)
    ensures Taken(es + [e]) == Taken(es) + |e.accepted|
  {
  }

  lemma AfterHolds(c: Chat, kept: Option<Entry>, out: Option<Entry>)
    requires kept.None? || out.None?
    ensures Held(After(c, kept, out))
            == Held(c) - (if c.current.Some? then |c.current.value.accepted| else 0)
               + (if kept.Some? then |kept.value.accepted| else 0)
               + (if out.Some? then |out.value.accepted| else 0)
  {
  }

  lemma DeliveryHolds(config: Config, c: Chat, i: nat)
    requires i < |c.flying|
    ensures Held(Step(config, c, Deliver(i))) == Held(c)
  {
    TakenWithout(c.flying, i);
    TakenMore(c.delivered, c.flying[i]);
  }

  lemma FailureHolds(config: Config, c: Chat, i: nat)
    requires i < |c.flying|
    ensures Held(Step(config, c, Fail(i))) == Held(c)
  {
    var again := Requeue(config, c.flying[i], c.now);
    TakenWithout(c.flying, i);
    if again.None? {
      TakenMore(c.givenUp, c.flying[i]);
    } else {
      assert again.value.accepted == c.flying[i].accepted;
      if c.current.Some? {
        TakenMore(c.overwritten, c.current.value);
      }
    }
  }

  lemma StepHolds(config: Config, c: Chat, e: Event)
    ensures Held(Step(config, c, e)) == Held(c) + if Accepts(c, e) then 1 else 0
  {
    if e.Arrive? {
      var (kept, out) := Enqueue(config, c.current, e.body, c.now, e.busy);
      AfterHolds(c, kept, out);
    } else if (e.Fire? || e.FireStray?) && c.current.Some? {
      var (kept, out) := Flush(config, c.current.value, c.now, e.busy);
      AfterHolds(c, kept, out);
    } else if e.Deliver? && e.flight < |c.flying| {
      DeliveryHolds(config, c, e.flight);
    } else if e.Fail? && e.flight < |c.flying| {
      FailureHolds(config, c, e.flight);
    }
  }

  // Every accepted body is kept by, or counted as omitted in, an entry that waits, is on
  // its way, was delivered, was given up after the window, or was overwritten.
  lemma {:induction false} KeptPlusOmittedIsAccepted(config: Config, now: int, events: seq<Event>)
    ensures Held(Run(config, now, events)) == Accepted(config, now, events)
  {
    if events != [] {
      KeptPlusOmittedIsAccepted(config, now, events[..|events| - 1]);
      StepHolds(config, Run(config, now, events[..|events| - 1]), events[|events| - 1]);
    }
  }

  // A step loses a queued entry exactly when a delivery fails within its window while a
  // newer entry waits.
  lemma OverwritesIff(config: Config, c: Chat, e: Event)
    ensures Step(config, c, e).overwritten != c.overwritten
            <==> e.Fail? && e.flight < |c.flying| && c.current.Some?
                 && c.now - c.flying[e.flight].firstQueuedAt < config.maxDeferral
  {
  }

  // It does happen: the second body is lost when the delivery of the first one fails.
  lemma OverwriteCanHappen(config: Config, now: int)
    requires Positive(config) && config.coalesce == 0 && config.maxDeferral > 0 && config.maxItems > 0
    ensures exists events :: |Run(config, now, events).overwritten| == 1
                             && Run(config, now, events).overwritten[0].bodies == ["b"]
  {
    var (first, second) := (Arrive("a", false), Arrive("b", true));
    RunOfThree(config, now, first, second, Fail(0));
    var c := Step(config, Start(now), first);
    assert [] + ["a"] == ["a"];
    assert c.current == None && c.flying == [Entry(["a"], 0, now, 0, None, ["a"])];
    var d := Step(config, c, second);
    assert d.current.Some? && d.current.value.bodies == ["b"] && d.flying == c.flying;
    assert Run(config, now, [first, second, Fail(0)]).overwritten == [d.current.value];
  }

  // ---------- The delivery object ----------

  // What happened to one chat so far, and since when.
  datatype Past = Past(start: int, events: seq<Event>)

  function StateOf(config: Config, p: Past): Chat {
    Run(config, p.start, p.events)
  }

  // The past of a chat after one more event at `now`.
  function Later(past: Option<Past>, now: int, e: Event): Past {
    match past
    case None => Past(now, [e])
    case Some(p) => Past(p.start, p.events + [Advance(now), e])
  }

  // The chat when the clock says `now`.
  function At(config: Config, past: Option<Past>, now: int): Chat {
    match past
    case None => Start(now)
    case Some(p) => StateOf(config, p).(now := now)
  }

  // No timer of the chat is overdue.
  predicate Timely(config: Config, past: Option<Past>, now: int) {
    past.Some? ==> OnTime(StateOf(config, past.value), now)
  }

  lemma LaterIsStep(config: Config, past: Option<Past>, now: int, e: Event)
    requires Timely(config, past, now)
    ensures StateOf(config, Later(past, now, e)) == Step(config, At(config, past, now), e)
  {
    match past
    case None =>
      RunSnoc(config, now, [], e);
      assert [] + [e] == [e];
    case Some(p) =>
      RunSnoc(config, p.start, p.events, Advance(now));
      RunSnoc(config, p.start, p.events + [Advance(now)], e);
      assert p.events + [Advance(now)] + [e] == p.events + [Advance(now), e];
  }

  class DeferredActivityDelivery {
    const config: Config
    var entries: map<string, Entry>
    ghost var past: map<string, Past>

    // Every chat's entry is where the events of that chat have led.
    ghost predicate Valid()
      reads this
    {
      && entries.Keys <= past.Keys
      && forall chat :: chat in past ==> Lookup(entries, chat) == StateOf(config, past[chat]).current
    }

    constructor (config: Config)
      ensures Valid() && this.config == config && entries == map[] && past == map[]
    {
      this.config := config;
      entries := map[];
      past := map[];
    }

    // Whatever holds in every run holds of every chat.
    lemma Holds(chat: string)
      requires Valid() && Positive(config) && chat in past
      ensures var c := StateOf(config, past[chat]);
              && InTime(config, c) && TidyChat(config, c) && Ahead(c)
              && Held(c) == Accepted(config, past[chat].start, past[chat].events)
              && (chat in entries ==> Waits(config, entries[chat], c.now) && Tidy(config, entries[chat]))
    {
      var p := past[chat];
      AlwaysInTime(config, p.start, p.events);
      AlwaysTidy(config, p.start, p.events);
      AlwaysAhead(config, p.start, p.events);
      KeptPlusOmittedIsAccepted(config, p.start, p.events);
      assert chat in entries ==> StateOf(config, p).current == Some(entries[chat]);
    }

    ghost predicate LastInFlight(p: Past, e: Entry) {
      var flying := StateOf(config, p).flying;
      flying != [] && flying[|flying| - 1] == e
    }

    ghost method Record(chat: string, now: int, e: Event)
      requires Timely(config, Lookup(past, chat), now) && entries.Keys <= past.Keys + {chat}
      requires Lookup(entries, chat) == Step(config, At(config, Lookup(past, chat), now), e).current
      requires forall other :: other != chat && other in past ==>
                 Lookup(entries, other) == StateOf(config, past[other]).current
      modifies `past
      ensures Valid() && past == old(past)[chat := Later(Lookup(old(past), chat), now, e)]
      ensures StateOf(config, past[chat]) == Step(config, At(config, Lookup(old(past), chat), now), e)
    {
      LaterIsStep(config, Lookup(past, chat), now, e);
      past := past[chat := Later(Lookup(past, chat), now, e)];
    }

    method Store(chat: string, entry: Option<Entry>)
      modifies `entries
      ensures Lookup(entries, chat) == entry
      ensures forall other :: other != chat ==> Lookup(entries, other) == Lookup(old(entries), other)
    {
      entries := if entry.Some? then entries[chat := entry.value] else Without(entries, chat);
    }

    // The body is trimmed already. `out` is handed to delivery.
    method EnqueueBody(chat: string, body: string, now: int, busy: bool) returns (out: Option<Entry>)
      requires Valid() && Timely(config, Lookup(past, chat), now)
      modifies this
      ensures Valid() && past == old(past)[chat := Later(Lookup(old(past), chat), now, Arrive(body, busy))]
      ensures (Lookup(entries, chat), out) == Enqueue(config, Lookup(old(entries), chat), body, now, busy)
      ensures out.Some? ==> LastInFlight(past[chat], out.value)
      ensures forall other :: other != chat ==> Lookup(entries, other) == Lookup(old(entries), other)
    {
      out := TakeBody(chat, body, now, busy);
      SameKeys(old(entries), entries, chat);
      Record(chat, now, Arrive(body, busy));
    }

    method TakeBody(chat: string, body: string, now: int, busy: bool) returns (out: Option<Entry>)
      modifies `entries
      ensures (Lookup(entries, chat), out) == Enqueue(config, Lookup(old(entries), chat), body, now, busy)
      ensures forall other :: other != chat ==> Lookup(entries, other) == Lookup(old(entries), other)
    {
      if body == "" {
        return None;
      }
      var entry := if chat in entries then entries[chat] else Entry([], 0, now, 0, None, []);
      if body !in entry.bodies {
        entry := entry.(bodies := entry.bodies + [body], accepted := entry.accepted + [body]);
        if |entry.bodies| > config.maxItems {
          entry := entry.(bodies := entry.bodies[1..], omitted := entry.omitted + 1);
        }
      }
      if entry.timer.None? && config.coalesce > 0 {
        entry := entry.(timer := Some(now + config.coalesce));
        Store(chat, Some(entry));
        out := None;
      } else if entry.timer.None? {
        Store(chat, Some(entry));
        out := FlushChat(chat, now, busy);
      } else {
        Store(chat, Some(entry));
        out := None;
      }
    }

    method FlushChat(chat: string, now: int, busy: bool) returns (out: Option<Entry>)
      modifies `entries
      ensures match Lookup(old(entries), chat)
              case None => entries == old(entries) && out == None
              case Some(e) => (Lookup(entries, chat), out) == Flush(config, e, now, busy)
      ensures forall other :: other != chat ==> Lookup(entries, other) == Lookup(old(entries), other)
    {
      if chat !in entries {
        return None;
      }
      var entry := entries[chat].(timer := None);
      var elapsed := now - entry.firstQueuedAt;
      if busy && elapsed < config.maxDeferral {
        var deferred := DeferEntry(entry, now, config.maxDeferral - elapsed);
        Store(chat, Some(deferred));
        return None;
      }
      Store(chat, None);
      out := Some(entry);
    }

    // A timer of the chat fires: the one of its entry, or one that an entry left behind.
    method TimerFired(chat: string, now: int, busy: bool, ghost timer: Event) returns (out: Option<Entry>)
      requires Valid() && chat in past && Timely(config, Some(past[chat]), now)
      requires (timer.Fire? || timer.FireStray?) && timer.busy == busy
      requires TimerFires(At(config, Some(past[chat]), now), timer)
      modifies this
      ensures Valid() && past == old(past)[chat := Later(Some(old(past)[chat]), now, timer)]
      ensures match Lookup(old(entries), chat)
              case None => entries == old(entries) && out == None
              case Some(e) => (Lookup(entries, chat), out) == Flush(config, e, now, busy)
      ensures out.Some? ==> LastInFlight(past[chat], out.value)
      ensures forall other :: other != chat ==> Lookup(entries, other) == Lookup(old(entries), other)
    {
      out := FlushChat(chat, now, busy);
      SameKeys(old(entries), entries, chat);
      Record(chat, now, timer);
    }

    method DeferEntry(entry: Entry, now: int, remaining: int) returns (deferred: Entry)
      ensures deferred == Defer(config, entry, now, remaining)
    {
      var exponentialDelay := config.initialDelay;
      var doublings := Min(entry.retryCount, 10);
      for i := 0 to doublings
        invariant exponentialDelay == config.initialDelay * Pow2(i)
      {
        exponentialDelay := exponentialDelay * 2;
      }
      var delay := Min(Min(exponentialDelay, config.maxDelay), remaining);
      deferred := entry.(retryCount := entry.retryCount + 1, timer := Some(now + delay));
    }

    // The delivery of the entry in flight `i` came through.
    ghost method DeliverySucceeded(chat: string, now: int, i: nat)
      requires Valid() && chat in past && Timely(config, Some(past[chat]), now)
      requires i < |StateOf(config, past[chat]).flying|
      modifies `past
      ensures Valid() && past == old(past)[chat := Later(Some(old(past)[chat]), now, Deliver(i))]
    {
      Record(chat, now, Deliver(i));
    }

    // It failed.
    method DeliveryFailed(chat: string, entry: Entry, now: int, ghost i: nat)
      requires Valid() && chat in past && Timely(config, Some(past[chat]), now)
      requires i < |StateOf(config, past[chat]).flying| && StateOf(config, past[chat]).flying[i] == entry
      modifies this
      ensures Valid() && past == old(past)[chat := Later(Some(old(past)[chat]), now, Fail(i))]
      ensures Lookup(entries, chat)
              == if Requeue(config, entry, now).Some? then Requeue(config, entry, now) else Lookup(old(entries), chat)
      ensures forall other :: other != chat ==> Lookup(entries, other) == Lookup(old(entries), other)
    {
      var elapsed := now - entry.firstQueuedAt;
      if elapsed < config.maxDeferral {
        var deferred := DeferEntry(entry, now, config.maxDeferral - elapsed);
        Store(chat, Some(deferred));
        SameKeys(old(entries), entries, chat);
      }
      Record(chat, now, Fail(i));
    }
  }

  lemma SameKeys(was: map<string, Entry>, now: map<string, Entry>, chat: string)
    requires forall other :: other != chat ==> Lookup(now, other) == Lookup(was, other)
    ensures now.Keys <= was.Keys + {chat}
  {
    forall other | other in now && other != chat ensures other in was {
      assert Lookup(now, other) == Lookup(was, other);
    }
  }
}
