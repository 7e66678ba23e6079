/**
 The per-address request limiter of the HTTP API, against the complete history of each
 address. Times are milliseconds of a clock that does not run backwards.
 */
module RateLimiter {
  import opened Common

  datatype Config = Config(
    windowMs: nat, maxRequests: nat, maxAuthFails: int, authLockoutMs: int, maxEntries: nat, disabled: bool)

  datatype Reason = Global | AuthLockout
  datatype Decision = Allow | Limit(retryAfterSec: int, reason: Reason)

  function CeilSeconds(ms: int): (s: int)
    ensures 1000 * (s - 1) < ms <= 1000 * s
  {
    (ms + 999) / 1000
  }

  // ---------- The reference: nothing is ever forgotten ----------

  datatype Call = Request(at: nat) | AuthFailure(at: nat) | AuthSuccess(at: nat)

  // `requests` are all requests that were counted, `fails` the failures since the last
  // success or lockout.
  datatype Memory = Memory(requests: seq<nat>, fails: seq<nat>, lockedUntil: int)

  function Within(times: seq<nat>, from: int): nat {
    if times == [] then 0
    else Within(times[..|times| - 1], from) + if times[|times| - 1] >= from then 1 else 0
  }

  function Answer(config: Config, m: Memory, c: Call): (Memory, Decision) {
    match c
    case Request(t) =>
      if m.lockedUntil > t then (m, Limit(CeilSeconds(m.lockedUntil - t), AuthLockout))
      else
        var n := m.(requests := m.requests + [t]);
        (n, if Within(n.requests, t - config.windowMs) > config.maxRequests
            then Limit(CeilSeconds(config.windowMs), Global) else Allow)
    case AuthFailure(t) =>
      var n := m.(fails := m.fails + [t]);
      if Within(n.fails, t - config.windowMs) >= config.maxAuthFails then
        (n.(fails := [], lockedUntil := t + config.authLockoutMs), Limit(CeilSeconds(config.authLockoutMs), AuthLockout))
      else (n, Allow)
    case AuthSuccess(_) => (m.(fails := []), Allow)
  }

  function Remember(config: Config, calls: seq<Call>): Memory {
    if calls == [] then Memory([], [], 0)
    else Answer(config, Remember(config, calls[..|calls| - 1]), calls[|calls| - 1]).0
  }

  // ---------- What the limiter keeps ----------

  datatype Entry = Entry(requests: seq<nat>, authFails: seq<nat>, lockedUntil: int, lastSeen: nat)

  predicate Sorted(times: seq<nat>, latest: nat) {
    && (forall i, j :: 0 <= i < j < |times| ==> times[i] <= times[j])
    && (forall i :: 0 <= i < |times| ==> times[i] <= latest)
  }

  // `kept` is `all` without some leading times, each before `from`.
  predicate KeepsFrom(kept: seq<nat>, all: seq<nat>, from: int) {
    && |kept| <= |all| && kept == all[|all| - |kept|..]
    && forall i :: 0 <= i < |all| - |kept| ==> all[i] < from
  }

  // One of the two lists, as kept and as remembered.
  predicate Tracks(kept: seq<nat>, all: seq<nat>, seen: nat, from: int) {
    Sorted(all, seen) && KeepsFrom(kept, all, from)
  }

  // What is stored for an address decides as the memory does, from `now` on.
  predicate Represents(config: Config, stored: Option<Entry>, m: Memory, now: nat) {
    match stored
    case Some(e) =>
      && e.lastSeen <= now
      && Tracks(e.requests, m.requests, e.lastSeen, now - config.windowMs)
      && Tracks(e.authFails, m.fails, e.lastSeen, now - config.windowMs)
      && (e.lockedUntil == m.lockedUntil || Max(e.lockedUntil, m.lockedUntil) <= now)
    case None =>
      && Tracks([], m.requests, now, now - config.windowMs)
      && Tracks([], m.fails, now, now - config.windowMs)
      && m.lockedUntil <= now
  }

  lemma {:induction false} WithinIsSuffix(times: seq<nat>, from: int, k: nat)
    requires k <= |times|
    requires forall i :: 0 <= i < k ==> times[i] < from
    requires forall i :: k <= i < |times| ==> times[i] >= from
    ensures Within(times, from) == |times| - k
  {
    if times != [] {
      WithinIsSuffix(times[..|times| - 1], from, Min(k, |times| - 1));
    }
  }

  lemma StaysRepresented(config: Config, stored: Option<Entry>, m: Memory, now: nat, later: nat)
    requires Represents(config, stored, m, now) && now <= later
    ensures Represents(config, stored, m, later)
  {
  }

  // Leaving out an entry that a sweep drops changes no decision.
  lemma SweptIsRepresented(config: Config, e: Entry, m: Memory, now: nat)
    requires Represents(config, Some(e), m, now)
    requires e.lastSeen < now - config.windowMs * 2 && e.lockedUntil < now
    ensures Represents(config, None, m, now)
  {
  }

  // ---------- At most maxRequests in any window ----------

  function Allowing(config: Config, allowed: seq<nat>, m: Memory, c: Call): seq<nat> {
    if c.Request? && Answer(config, m, c).1 == Allow then allowed + [c.at] else allowed
  }

  // The times at which requests were allowed.
  function Allowed(config: Config, calls: seq<Call>): seq<nat> {
    if calls == [] then []
    else
      var before := calls[..|calls| - 1];
      Allowing(config, Allowed(config, before), Remember(config, before), calls[|calls| - 1])
  }

  function Between(times: seq<nat>, from: int, to: int): nat {
    if times == [] then 0
    else Between(times[..|times| - 1], from, to) + if from <= times[|times| - 1] <= to then 1 else 0
  }

  lemma WithinAppend(times: seq<nat>, t: nat, from: int)
    ensures Within(times + [t], from) == Within(times, from) + if t >= from then 1 else 0
  {
  }

  lemma OneMoreCounted(config: Config, allowed: seq<nat>, m: Memory, c: Call, from: int)
    requires Within(allowed, from) <= Within(m.requests, from)
    ensures Within(Allowing(config, allowed, m, c), from) <= Within(Answer(config, m, c).0.requests, from)
  {
  }

  // Allowed requests are counted requests.
  lemma {:induction false} AllowedAreCounted(config: Config, calls: seq<Call>, from: int)
    ensures Within(Allowed(config, calls), from) <= Within(Remember(config, calls).requests, from)
  {
    if calls != [] {
      var before := calls[..|calls| - 1];
      AllowedAreCounted(config, before, from);
      OneMoreCounted(config, Allowed(config, before), Remember(config, before), calls[|calls| - 1], from);
    }
  }

  // The request that is allowed now sees all allowed ones of its window among the counted.
  lemma NewestFits(config: Config, allowed: seq<nat>, m: Memory, c: Call, from: int)
    requires c.Request? && Answer(config, m, c).1 == Allow && from <= c.at <= from + config.windowMs
    requires Within(allowed, c.at - config.windowMs) <= Within(m.requests, c.at - config.windowMs)
    ensures Between(Allowing(config, allowed, m, c), from, from + config.windowMs) <= config.maxRequests
  {
    var lower := c.at - config.windowMs;
    OneMoreCounted(config, allowed, m, c, lower);
    BetweenBelow(Allowing(config, allowed, m, c), from, from + config.windowMs, lower);
  }

  lemma OtherwiseSame(config: Config, allowed: seq<nat>, m: Memory, c: Call, from: int)
    requires !(c.Request? && Answer(config, m, c).1 == Allow && from <= c.at <= from + config.windowMs)
    ensures Between(Allowing(config, allowed, m, c), from, from + config.windowMs)
            == Between(allowed, from, from + config.windowMs)
  {
  }

  lemma {:induction false} BetweenBelow(times: seq<nat>, from: int, to: int, lower: int)
    requires lower <= from
    ensures Between(times, from, to) <= Within(times, lower)
  {
    if times != [] {
      BetweenBelow(times[..|times| - 1], from, to, lower);
    }
  }

  // Whatever an address does, at most `maxRequests` of its requests are allowed in any
  // window of the configured length, both ends included.
  lemma {:induction false} AtMostMaxInAnyWindow(config: Config, calls: seq<Call>, from: int)
    ensures Between(Allowed(config, calls), from, from + config.windowMs) <= config.maxRequests
  {
    if calls != [] {
      var before := calls[..|calls| - 1];
      var c := calls[|calls| - 1];
      AtMostMaxInAnyWindow(config, before, from);
      var m := Remember(config, before);
      var allowed := Allowed(config, before);
      if c.Request? && Answer(config, m, c).1 == Allow && from <= c.at <= from + config.windowMs {
        AllowedAreCounted(config, before, c.at - config.windowMs);
        NewestFits(config, allowed, m, c, from);
      } else {
        OtherwiseSame(config, allowed, m, c, from);
      }
    }
  }

  // ---------- What Retry-After is worth ----------

  // Waiting out a lockout as told is enough, and a whole second less is not.
  lemma LockoutWait(config: Config, m: Memory, t: nat)
    requires m.lockedUntil > t
    ensures var wait := Answer(config, m, Request(t)).1.retryAfterSec;
            && wait >= 1
            && m.lockedUntil <= t + 1000 * wait
            && m.lockedUntil > t + 1000 * (wait - 1)
  {
  }

  predicate AtOrBefore(times: seq<nat>, t: nat) {
    forall i :: 0 <= i < |times| ==> times[i] <= t
  }

  function Exactly(times: seq<nat>, t: nat): nat {
    if times == [] then 0 else Exactly(times[..|times| - 1], t) + if times[|times| - 1] == t then 1 else 0
  }

  lemma {:induction false} WithinAtEnd(times: seq<nat>, t: nat)
    requires AtOrBefore(times, t)
    ensures Within(times, t) == Exactly(times, t)
    ensures forall later: int :: later > t ==> Within(times, later) == 0
  {
    if times != [] {
      WithinAtEnd(times[..|times| - 1], t);
    }
  }

  // A denied caller that waits exactly as long as told is let through, unless the window is
  // a whole number of seconds and as many requests as are allowed fell on the very
  // millisecond of the denied one: the window includes both its ends.
  lemma WindowWait(config: Config, m: Memory, t: nat)
    requires AtOrBefore(m.requests, t) && m.lockedUntil <= t && config.maxRequests > 0
    requires Answer(config, m, Request(t)).1 == Limit(CeilSeconds(config.windowMs), Global)
    ensures var n := Answer(config, m, Request(t)).0;
            Answer(config, n, Request(t + 1000 * CeilSeconds(config.windowMs))).1 == Allow
            <==> config.windowMs % 1000 != 0 || Exactly(n.requests, t) < config.maxRequests
  {
    var n := Answer(config, m, Request(t)).0;
    var again := t + 1000 * CeilSeconds(config.windowMs);
    WithinAtEnd(n.requests, t);
    WithinAppend(n.requests, again, again - config.windowMs);
    assert config.windowMs % 1000 == 0 <==> 1000 * CeilSeconds(config.windowMs) == config.windowMs;
  }

  // ---------- Decisions on what is kept ----------

  function Pruned(times: seq<nat>, cutoff: int): seq<nat> {
    if times != [] && times[0] < cutoff then Pruned(times[1..], cutoff) else times
  }

  function Blank(t: nat): Entry {
    Entry([], [], 0, t)
  }

  function Decide(config: Config, stored: Option<Entry>, c: Call): (Option<Entry>, Decision) {
    var e := stored.GetOr(Blank(c.at)).(lastSeen := c.at);
    match c
    case Request(t) =>
      if e.lockedUntil > t then (Some(e), Limit(CeilSeconds(e.lockedUntil - t), AuthLockout))
      else
        var requests := Pruned(e.requests, t - config.windowMs) + [t];
        (Some(e.(requests := requests)),
         if |requests| > config.maxRequests then Limit(CeilSeconds(config.windowMs), Global) else Allow)
    case AuthFailure(t) =>
      var fails := Pruned(e.authFails, t - config.windowMs) + [t];
      if |fails| >= config.maxAuthFails then
        (Some(e.(authFails := [], lockedUntil := t + config.authLockoutMs)),
         Limit(CeilSeconds(config.authLockoutMs), AuthLockout))
      else (Some(e.(authFails := fails)), Allow)
    case AuthSuccess(_) => (if stored.Some? then Some(e.(authFails := [])) else None, Allow)
  }

  lemma PruneKeeps(kept: seq<nat>, all: seq<nat>, from: int, seen: nat)
    requires KeepsFrom(kept, all, from) && Sorted(all, seen)
    ensures var p := Pruned(kept, from);
            KeepsFrom(p, all, from) && forall i :: |all| - |p| <= i < |all| ==> all[i] >= from
  {
  }

  // Pruning and recording keeps what counts, and the length is the count.
  lemma PruneAndRecord(kept: seq<nat>, all: seq<nat>, t: nat, from: int, seen: nat)
    requires KeepsFrom(kept, all, from) && Sorted(all, seen) && seen <= t && from <= t
    ensures var after := Pruned(kept, from) + [t];
            && KeepsFrom(after, all + [t], from) && Sorted(all + [t], t)
            && |after| == Within(all + [t], from)
  {
    PruneKeeps(kept, all, from, seen);
    var p := Pruned(kept, from);
    var drop := |all| - |p|;
    assert p + [t] == (all + [t])[drop..];
    WithinIsSuffix(all + [t], from, drop);
  }

  lemma Recorded(kept: seq<nat>, all: seq<nat>, seen: nat, t: nat, from: int)
    requires Tracks(kept, all, seen, from) && seen <= t && from <= t
    ensures var after := Pruned(kept, from) + [t];
            Tracks(after, all + [t], t, from) && |after| == Within(all + [t], from)
  {
    PruneAndRecord(kept, all, t, from, seen);
  }

  lemma SeenLater(kept: seq<nat>, all: seq<nat>, seen: nat, t: nat, from: int)
    requires Tracks(kept, all, seen, from) && seen <= t
    ensures Tracks(kept, all, t, from)
  {
  }

  lemma RequestAgrees(config: Config, e: Entry, m: Memory, t: nat)
    requires Represents(config, Some(e), m, t)
    ensures var (after, decision) := Decide(config, Some(e), Request(t));
            decision == Answer(config, m, Request(t)).1 && Represents(config, after, Answer(config, m, Request(t)).0, t)
  {
    var from := t - config.windowMs;
    SeenLater(e.requests, m.requests, e.lastSeen, t, from);
    SeenLater(e.authFails, m.fails, e.lastSeen, t, from);
    assert e.lockedUntil > t <==> m.lockedUntil > t;
    if e.lockedUntil <= t {
      Recorded(e.requests, m.requests, e.lastSeen, t, from);
      var requests := Pruned(e.requests, from) + [t];
      assert Answer(config, m, Request(t)).0 == Memory(m.requests + [t], m.fails, m.lockedUntil);
      assert Decide(config, Some(e), Request(t)).0 == Some(Entry(requests, e.authFails, e.lockedUntil, t));
    }
  }

  lemma FailureAgrees(config: Config, e: Entry, m: Memory, t: nat)
    requires Represents(config, Some(e), m, t)
    ensures var (after, decision) := Decide(config, Some(e), AuthFailure(t));
            decision == Answer(config, m, AuthFailure(t)).1
            && Represents(config, after, Answer(config, m, AuthFailure(t)).0, t)
  {
    var from := t - config.windowMs;
    SeenLater(e.requests, m.requests, e.lastSeen, t, from);
    Recorded(e.authFails, m.fails, e.lastSeen, t, from);
  }

  // The limiter's decision is the one the complete history calls for.
  lemma DecidesAsRemembered(config: Config, stored: Option<Entry>, m: Memory, c: Call)
    requires Represents(config, stored, m, c.at)
    ensures var (after, decision) := Decide(config, stored, c);
            decision == Answer(config, m, c).1 && Represents(config, after, Answer(config, m, c).0, c.at)
  {
    var e := stored.GetOr(Blank(c.at));
    assert Represents(config, Some(e), m, c.at);
    if c.Request? {
      RequestAgrees(config, e, m, c.at);
    } else if c.AuthFailure? {
      FailureAgrees(config, e, m, c.at);
    }
  }

  // The addresses of which the limiter does not know what their history calls for.
  ghost function Misread(config: Config, entries: map<string, Entry>, calls: map<string, seq<Call>>,
                         clock: nat): iset<string> {
    iset ip | !Represents(config, Lookup(entries, ip), Remember(config, LookupOr(calls, ip, [])), clock)
  }

  lemma RememberMore(config: Config, calls: seq<Call>, c: Call)
    ensures Remember(config, calls + [c]) == Answer(config, Remember(config, calls), c).0
  {
  }

  lemma CallerStays(config: Config, stored: Option<Entry>, history: seq<Call>, clock: nat, c: Call)
    requires Represents(config, stored, Remember(config, history), clock) && clock <= c.at
    ensures Represents(config, Decide(config, stored, c).0, Remember(config, history + [c]), c.at)
    ensures Decide(config, stored, c).1 == Answer(config, Remember(config, history), c).1
  {
    StaysRepresented(config, stored, Remember(config, history), clock, c.at);
    DecidesAsRemembered(config, stored, Remember(config, history), c);
    RememberMore(config, history, c);
  }

  // One call, which may evict `victims`: nobody else becomes misread.
  lemma CallMisreadsNobody(config: Config, entries: map<string, Entry>, calls: map<string, seq<Call>>, clock: nat,
                           ip: string, c: Call, victims: set<string>, after: map<string, Entry>)
    requires clock <= c.at
    requires forall x :: x !in victims ==>
               Lookup(after, x) == if x == ip then Decide(config, Lookup(entries, ip), c).0 else Lookup(entries, x)
    ensures forall x :: x in Misread(config, after, calls[ip := LookupOr(calls, ip, []) + [c]], c.at) ==>
              x in Misread(config, entries, calls, clock) || x in victims
  {
    var more := calls[ip := LookupOr(calls, ip, []) + [c]];
    forall x | x !in Misread(config, entries, calls, clock) && x !in victims
      ensures x !in Misread(config, after, more, c.at)
    {
      if x == ip {
        CallerStays(config, Lookup(entries, ip), LookupOr(calls, ip, []), clock, c);
      } else {
        StaysRepresented(config, Lookup(entries, x), Remember(config, LookupOr(calls, x, [])), clock, c.at);
      }
    }
  }

  lemma CallStaysCovered(config: Config, entries: map<string, Entry>, calls: map<string, seq<Call>>, clock: nat,
                         ip: string, c: Call, victims: set<string>, after: map<string, Entry>, evicted: set<string>)
    requires clock <= c.at && victims <= evicted
    requires forall x :: x in Misread(config, entries, calls, clock) ==> x in evicted
    requires forall x :: x !in victims ==>
               Lookup(after, x) == if x == ip then Decide(config, Lookup(entries, ip), c).0 else Lookup(entries, x)
    ensures forall x :: x in Misread(config, after, calls[ip := LookupOr(calls, ip, []) + [c]], c.at) ==> x in evicted
  {
    CallMisreadsNobody(config, entries, calls, clock, ip, c, victims, after);
  }

  lemma SweepMisreadsNobody(config: Config, entries: map<string, Entry>, calls: map<string, seq<Call>>, clock: nat,
                            t: nat, after: map<string, Entry>)
    requires clock <= t
    requires forall x :: Lookup(after, x) == Lookup(entries, x)
               || (x in entries && x !in after
                   && entries[x].lastSeen < t - config.windowMs * 2 && entries[x].lockedUntil < t)
    ensures forall x :: x in Misread(config, after, calls, t) ==> x in Misread(config, entries, calls, clock)
  {
    forall x | x !in Misread(config, entries, calls, clock)
      ensures x !in Misread(config, after, calls, t)
    {
      var m := Remember(config, LookupOr(calls, x, []));
      StaysRepresented(config, Lookup(entries, x), m, clock, t);
      if Lookup(after, x) != Lookup(entries, x) {
        SweptIsRepresented(config, entries[x], m, t);
      }
    }
  }

  predicate WithinCap(config: Config, entries: map<string, Entry>) {
    "" !in entries && (config.maxEntries > 0 ==> |entries| <= config.maxEntries)
  }

  // A new address and at most one victim for it.
  lemma CapSize(before: map<string, Entry>, grown: map<string, Entry>, ip: string, victims: set<string>, max: nat)
    requires ip !in before && grown.Keys == before.Keys + {ip}
    requires victims <= before.Keys && |victims| <= 1
    requires |grown| > max && grown.Keys != {ip} && "" !in grown ==> |victims| == 1
    ensures max > 0 && ip != "" && "" !in before && |before| <= max ==> |grown - victims| <= max
  {
  }

  // For addresses never evicted, what was let through is what their history allows.
  ghost predicate LetThrough(config: Config, calls: map<string, seq<Call>>, evicted: set<string>,
                             allowed: map<string, seq<nat>>) {
    forall ip :: ip !in evicted ==> LookupOr(allowed, ip, []) == Allowed(config, LookupOr(calls, ip, []))
  }

  function AfterAnswer(allowed: map<string, seq<nat>>, ip: string, c: Call, d: Decision): map<string, seq<nat>> {
    if c.Request? && d == Allow then allowed[ip := LookupOr(allowed, ip, []) + [c.at]] else allowed
  }

  lemma AllowedSnoc(config: Config, calls: seq<Call>, c: Call)
    ensures Allowed(config, calls + [c]) == Allowing(config, Allowed(config, calls), Remember(config, calls), c)
  {
    assert (calls + [c])[..|calls|] == calls;
  }

  lemma OneMoreAnswer(config: Config, calls: map<string, seq<Call>>, evicted: set<string>,
                      allowed: map<string, seq<nat>>, ip: string, c: Call, d: Decision)
    requires LetThrough(config, calls, evicted, allowed)
    requires ip !in evicted ==> d == Answer(config, Remember(config, LookupOr(calls, ip, [])), c).1
    ensures LetThrough(config, calls[ip := LookupOr(calls, ip, []) + [c]], evicted, AfterAnswer(allowed, ip, c, d))
  {
    var (after, answered) := (calls[ip := LookupOr(calls, ip, []) + [c]], AfterAnswer(allowed, ip, c, d));
    AllowedSnoc(config, LookupOr(calls, ip, []), c);
    forall x | x !in evicted
      ensures LookupOr(answered, x, []) == Allowed(config, LookupOr(after, x, []))
    {
      assert LookupOr(allowed, x, []) == Allowed(config, LookupOr(calls, x, []));
      assert x != ip ==> LookupOr(after, x, []) == LookupOr(calls, x, []);
    }
  }

  class RequestRateLimiter {
    const config: Config
    var entries: map<string, Entry>
    ghost var calls: map<string, seq<Call>>
    ghost var clock: nat
    ghost var evicted: set<string>
    ghost var sawEmpty: bool
    // When `Check` itself let a request of an address through.
    ghost var allowed: map<string, seq<nat>>

    ghost function History(ip: string): seq<Call>
      reads this
    {
      LookupOr(calls, ip, [])
    }

    ghost predicate Valid()
      reads this
    {
      && (forall ip :: ip in Misread(config, entries, calls, clock) ==> ip in evicted)
      && (!sawEmpty ==> WithinCap(config, entries))
      && LetThrough(config, calls, evicted, allowed)
    }

    constructor (config: Config)
      ensures Valid() && this.config == config && entries == map[] && calls == map[] && evicted == {} && !sawEmpty
      ensures allowed == map[]
    {
      this.config := config;
      entries, calls, clock, evicted, sawEmpty, allowed := map[], map[], 0, {}, false, map[];
    }

    // What the object itself let through, unless it is disabled: at most `maxRequests` in any
    // window, for every address whose entry was never evicted.
    lemma AtMostMaxLetThrough(ip: string, from: int)
      requires Valid() && ip !in evicted
      ensures Between(LookupOr(allowed, ip, []), from, from + config.windowMs) <= config.maxRequests
    {
      AtMostMaxInAnyWindow(config, History(ip), from);
    }

    method Prune(times: seq<nat>, cutoff: int) returns (kept: seq<nat>)
      ensures kept == Pruned(times, cutoff)
    {
      var i := 0;
      while i < |times| && times[i] < cutoff
        invariant 0 <= i <= |times| && Pruned(times[i..], cutoff) == Pruned(times, cutoff)
      {
        assert times[i..][1..] == times[i + 1..];
        i := i + 1;
      }
      kept := times[i..];
    }

    // The entry seen the longest time ago, other than `except`.
    method Oldest(except: string) returns (oldest: Option<string>)
      ensures oldest.None? <==> entries.Keys <= {except}
      ensures oldest.Some? ==>
        && oldest.value in entries && oldest.value != except
        && forall ip :: ip in entries && ip != except ==> entries[oldest.value].lastSeen <= entries[ip].lastSeen
    {
      oldest := None;
      var todo := entries.Keys;
      while todo != {}
        invariant todo <= entries.Keys
        invariant oldest.None? ==> forall ip :: ip in entries && ip !in todo ==> ip == except
        invariant oldest.Some? ==>
          && oldest.value in entries && oldest.value != except
          && forall ip :: ip in entries && ip !in todo && ip != except ==>
               entries[oldest.value].lastSeen <= entries[ip].lastSeen
        decreases |todo|
      {
        var next :| next in todo;
        if next != except && (oldest.None? || entries[next].lastSeen < entries[oldest.value].lastSeen) {
          oldest := Some(next);
        }
        todo := todo - {next};
      }
    }

    // Evicts one entry when there are too many. The empty address is never evicted.
    method EnforceCap(except: string) returns (ghost victims: set<string>)
      requires except in entries
      modifies `entries, `evicted
      ensures entries == old(entries) - victims && evicted == old(evicted) + victims
      ensures victims <= old(entries).Keys - {except, ""} && |victims| <= 1
      ensures victims != {} ==> |old(entries)| > config.maxEntries
      ensures forall v, ip :: v in victims && ip in old(entries) && ip != except ==>
                old(entries)[v].lastSeen <= old(entries)[ip].lastSeen
      ensures |old(entries)| > config.maxEntries && old(entries).Keys != {except} && "" !in old(entries) ==> |victims| == 1
      ensures LetThrough(config, calls, old(evicted), allowed) ==> LetThrough(config, calls, evicted, allowed)
    {
      victims := {};
      assert entries == entries - victims;
      if |entries| <= config.maxEntries {
        return;
      }
      var oldest := Oldest(except);
      if oldest.Some? && oldest.value != "" {
        victims := {oldest.value};
        entries := Without(entries, oldest.value);
        evicted := evicted + victims;
      }
    }

    method Create(ip: string, entry: Entry) returns (ghost victims: set<string>)
      requires ip !in entries
      modifies `entries, `evicted
      ensures entries == old(entries)[ip := entry] - victims && evicted == old(evicted) + victims
      ensures ip !in victims && (victims != {} ==> |old(entries)| >= config.maxEntries)
      ensures ip != "" && WithinCap(config, old(entries)) ==> WithinCap(config, entries)
      ensures LetThrough(config, calls, old(evicted), allowed) ==> LetThrough(config, calls, evicted, allowed)
    {
      entries := entries[ip := entry];
      ghost var grown := entries;
      assert grown.Keys == old(entries).Keys + {ip};
      victims := EnforceCap(ip);
      CapSize(old(entries), grown, ip, victims, config.maxEntries);
    }

    method GetOrCreate(ip: string, t: nat) returns (entry: Entry, ghost victims: set<string>)
      modifies `entries, `evicted
      ensures entry == Lookup(old(entries), ip).GetOr(Blank(t))
      ensures entries == old(entries)[ip := entry] - victims && evicted == old(evicted) + victims
      ensures ip !in victims && (victims != {} ==> |old(entries)| >= config.maxEntries)
      ensures ip != "" && WithinCap(config, old(entries)) ==> WithinCap(config, entries)
      ensures LetThrough(config, calls, old(evicted), allowed) ==> LetThrough(config, calls, evicted, allowed)
    {
      if ip in entries {
        entry := entries[ip];
        victims := {};
        assert entries == old(entries)[ip := entry];
      } else {
        entry := Blank(t);
        victims := Create(ip, entry);
      }
    }

    // The bookkeeping of one call, after its decision.
    ghost method Record(ip: string, c: Call, d: Decision, was: map<string, Entry>, victims: set<string>)
      requires clock <= c.at && victims <= evicted
      requires forall x :: x in Misread(config, was, calls, clock) ==> x in evicted
      requires LetThrough(config, calls, evicted, allowed)
      requires ip !in evicted ==> d == Answer(config, Remember(config, LookupOr(calls, ip, [])), c).1
      requires !sawEmpty && ip != "" ==> WithinCap(config, entries)
      requires forall x :: x !in victims ==>
                 Lookup(entries, x) == if x == ip then Decide(config, Lookup(was, ip), c).0 else Lookup(was, x)
      modifies `calls, `clock, `sawEmpty, `allowed
      ensures Valid() && clock == c.at
      ensures calls == old(calls)[ip := LookupOr(old(calls), ip, []) + [c]]
      ensures allowed == AfterAnswer(old(allowed), ip, c, d)
      ensures sawEmpty == (old(sawEmpty) || ip == "")
    {
      CallStaysCovered(config, was, calls, clock, ip, c, victims, entries, evicted);
      OneMoreAnswer(config, calls, evicted, allowed, ip, c, d);
      allowed := AfterAnswer(allowed, ip, c, d);
      calls := calls[ip := LookupOr(calls, ip, []) + [c]];
      clock := c.at;
      sawEmpty := sawEmpty || ip == "";
    }

    // Stores what a decision made of the entry of `ip`.
    method Commit(ip: string, entry: Entry, ghost c: Call, ghost d: Decision,
                  ghost was: map<string, Entry>, ghost victims: set<string>)
      requires clock <= c.at && victims <= evicted && ip in entries && ip !in victims
      requires forall x :: x in Misread(config, was, calls, clock) ==> x in evicted
      requires LetThrough(config, calls, evicted, allowed)
      requires ip !in evicted ==> d == Answer(config, Remember(config, LookupOr(calls, ip, [])), c).1
      requires !sawEmpty && ip != "" ==> WithinCap(config, entries)
      requires entries == was[ip := entries[ip]] - victims
      requires Decide(config, Lookup(was, ip), c).0 == Some(entry)
      modifies `entries, `calls, `clock, `sawEmpty, `allowed
      ensures Valid() && clock == c.at && sawEmpty == (old(sawEmpty) || ip == "")
      ensures calls == old(calls)[ip := LookupOr(old(calls), ip, []) + [c]]
      ensures allowed == AfterAnswer(old(allowed), ip, c, d)
    {
      entries := entries[ip := entry];
      assert entries.Keys == old(entries).Keys;
      Record(ip, c, d, was, victims);
    }

    method DecideRequest(stored: Entry, t: nat) returns (entry: Entry, decision: Decision)
      ensures Decide(config, Some(stored), Request(t)) == (Some(entry), decision)
    {
      entry := stored.(lastSeen := t);
      if entry.lockedUntil > t {
        decision := Limit(CeilSeconds(entry.lockedUntil - t), AuthLockout);
      } else {
        var requests := Prune(entry.requests, t - config.windowMs);
        entry := entry.(requests := requests + [t]);
        decision := if |entry.requests| > config.maxRequests then Limit(CeilSeconds(config.windowMs), Global) else Allow;
      }
    }

    method DecideFailure(stored: Entry, t: nat) returns (entry: Entry, decision: Decision)
      ensures Decide(config, Some(stored), AuthFailure(t)) == (Some(entry), decision)
    {
      entry := stored.(lastSeen := t);
      var fails := Prune(entry.authFails, t - config.windowMs);
      entry := entry.(authFails := fails + [t]);
      decision := Allow;
      if |entry.authFails| >= config.maxAuthFails {
        entry := entry.(authFails := [], lockedUntil := t + config.authLockoutMs);
        decision := Limit(CeilSeconds(config.authLockoutMs), AuthLockout);
      }
    }

    // As long as its entry was never evicted, an address gets the answer its whole history
    // calls for. A call evicts only when the table is full.
    method Check(ip: string, t: nat) returns (decision: Decision)
      requires Valid() && clock <= t
      modifies this
      ensures Valid()
      ensures config.disabled ==> decision == Allow && entries == old(entries) && calls == old(calls)
      ensures !config.disabled ==> clock == t && calls == old(calls)[ip := old(History(ip)) + [Request(t)]]
      ensures sawEmpty ==> old(sawEmpty) || ip == ""
      ensures !config.disabled && ip !in old(evicted) ==>
                decision == Answer(config, Remember(config, old(History(ip))), Request(t)).1
      ensures !config.disabled ==> allowed == AfterAnswer(old(allowed), ip, Request(t), decision)
      ensures evicted != old(evicted) ==> |old(entries)| >= config.maxEntries
    {
      if config.disabled {
        return Allow;
      }
      ghost var was := entries;
      DecisionOf(config, was, calls, clock, ip, Request(t));
      MissingIsBlank(config, Lookup(was, ip), Request(t));
      var stored, victims := GetOrCreate(ip, t);
      var entry;
      entry, decision := DecideRequest(stored, t);
      Commit(ip, entry, Request(t), decision, was, victims);
    }

    method RecordAuthFailure(ip: string, t: nat) returns (decision: Decision)
      requires Valid() && clock <= t
      modifies this
      ensures Valid()
      ensures config.disabled ==> decision == Allow && entries == old(entries) && calls == old(calls)
      ensures !config.disabled ==> clock == t && calls == old(calls)[ip := old(History(ip)) + [AuthFailure(t)]]
      ensures sawEmpty ==> old(sawEmpty) || ip == ""
      ensures !config.disabled && ip !in old(evicted) ==>
                decision == Answer(config, Remember(config, old(History(ip))), AuthFailure(t)).1
      ensures evicted != old(evicted) ==> |old(entries)| >= config.maxEntries
    {
      if config.disabled {
        return Allow;
      }
      ghost var was := entries;
      DecisionOf(config, was, calls, clock, ip, AuthFailure(t));
      MissingIsBlank(config, Lookup(was, ip), AuthFailure(t));
      var stored, victims := GetOrCreate(ip, t);
      var entry;
      entry, decision := DecideFailure(stored, t);
      Commit(ip, entry, AuthFailure(t), decision, was, victims);
    }

    method RecordAuthSuccess(ip: string, t: nat)
      requires Valid() && clock <= t
      modifies this
      ensures Valid() && evicted == old(evicted)
      ensures config.disabled ==> entries == old(entries) && calls == old(calls)
      ensures !config.disabled ==> clock == t && calls == old(calls)[ip := old(History(ip)) + [AuthSuccess(t)]]
      ensures sawEmpty ==> old(sawEmpty) || ip == ""
    {
      if config.disabled {
        return;
      }
      ghost var was := entries;
      if ip in entries {
        Commit(ip, entries[ip].(authFails := [], lastSeen := t), AuthSuccess(t), Allow, was, {});
      } else {
        Record(ip, AuthSuccess(t), Allow, was, {});
      }
    }

    method Sweep(t: nat)
      requires Valid() && clock <= t
      modifies `entries, `clock
      ensures Valid() && clock == t && calls == old(calls) && evicted == old(evicted) && sawEmpty == old(sawEmpty)
      ensures forall ip :: ip in entries <==>
                ip in old(entries)
                && !(old(entries)[ip].lastSeen < t - config.windowMs * 2 && old(entries)[ip].lockedUntil < t)
    {
      ghost var was := entries;
      var todo := entries.Keys;
      while todo != {}
        invariant todo <= was.Keys && entries.Keys <= was.Keys && todo <= entries.Keys
        invariant forall ip :: ip in entries ==> entries[ip] == was[ip]
        invariant forall ip :: ip in was && ip !in todo ==>
          (ip in entries <==> !(was[ip].lastSeen < t - config.windowMs * 2 && was[ip].lockedUntil < t))
        invariant clock == old(clock) && calls == old(calls) && evicted == old(evicted)
        invariant sawEmpty == old(sawEmpty)
        decreases |todo|
      {
        var ip :| ip in todo;
        todo := todo - {ip};
        if entries[ip].lastSeen < t - config.windowMs * 2 && entries[ip].lockedUntil < t {
          entries := Without(entries, ip);
        }
      }
      SweepMisreadsNobody(config, was, calls, clock, t, entries);
      SubsetSize(entries.Keys, was.Keys);
      clock := t;
    }
  }

  // What the limiter decides for an address it does not misread.
  lemma DecisionOf(config: Config, entries: map<string, Entry>, calls: map<string, seq<Call>>, clock: nat,
                   ip: string, c: Call)
    requires clock <= c.at
    ensures ip !in Misread(config, entries, calls, clock) ==>
              Decide(config, Lookup(entries, ip), c).1 == Answer(config, Remember(config, LookupOr(calls, ip, [])), c).1
  {
    if ip !in Misread(config, entries, calls, clock) {
      CallerStays(config, Lookup(entries, ip), LookupOr(calls, ip, []), clock, c);
    }
  }

  lemma MissingIsBlank(config: Config, stored: Option<Entry>, c: Call)
    requires !c.AuthSuccess?
    ensures Decide(config, stored, c) == Decide(config, Some(stored.GetOr(Blank(c.at))), c)
  {
  }
}
