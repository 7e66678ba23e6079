/**
 Forwarding a task to a peer and checking what a peer sends. Routing by URL is a
 parameter; so is the encoded length of claims.
 */
module PeerManager {
  import opened Common
  import opened Text
  import opened PeerAuth

  datatype Key = Key(keyId: string, secret: string, acceptUntil: Option<int>)

  datatype Auth = Auth(
    keyId: string, secret: string, sourceBot: Option<string>, acceptKeys: seq<Key>,
    revokedKeyIds: seq<string>, allowedSourceBots: seq<string>, allowedTargetBots: seq<string>)

  // `host` is the host of the peer's URL, if that parses.
  datatype Peer = Peer(name: string, host: Option<string>, auth: Option<Auth>)

  // A status route carries the task id, if that decodes.
  datatype RouteKind = Talk | Tasks | Listing | TalkStatus(taskId: Option<string>) | Unknown

  datatype World = World(route: string -> RouteKind, encodedLength: Claims -> nat)

  datatype Bridge = Bridge(identity: Option<string>, peers: map<string, Peer>, localBots: seq<string>)

  datatype Request = Request(
    authorization: Authorization, verb: string, path: string, host: Option<string>, origin: Option<string>, body: RawBody)

  // ---------- Sending ----------

  function Trimmed(s: Option<string>): string {
    if s.Some? then Trim(s.value) else ""
  }

  function ResolveSourceBot(b: Bridge, auth: Auth, requested: Field): Option<string> {
    var configured := Trimmed(auth.sourceBot);
    if configured != "" then
      if configured !in b.localBots then None
      else if requested.Str? && Trim(requested.value) != "" && requested.value != configured then None
      else Some(configured)
    else if requested.Str? && requested.value in b.localBots then Some(requested.value)
    else if b.identity.None? then None
    else Some("bridge:" + b.identity.value)
  }

  // A rules pack needs an issuer and an explicit local source bot.
  predicate DispatchMayGo(b: Bridge, auth: Auth, task: Task) {
    task.dispatch.NoDispatch?
    || (var configured := Trimmed(auth.sourceBot);
        var issuer := task.dispatch.issuer;
        && issuer.Str? && Trim(issuer.value) != ""
        && configured != ""
        && (task.sourceBot.Str? ==> Trim(task.sourceBot.value) == configured)
        && configured in b.localBots)
  }

  function StrOr(f: Field, default: string): string {
    if f.Str? then f.value else default
  }

  function Issuer(task: Task): Option<string> {
    if task.dispatch.Dispatch? && task.dispatch.issuer.Str? then Some(task.dispatch.issuer.value) else None
  }

  function TrimmedIssuer(task: Task): Option<string> {
    match Issuer(task)
    case Some(i) => if Trim(i) == "" then None else Some(Trim(i))
    case None => None
  }

  function Outbound(task: Task, sourceBot: string, requestId: string): Task {
    task.(sourceBot := Str(sourceBot), requestId := Str(requestId), isAsync := True,
          callbackBotName := Missing, callbackChatId := Missing)
  }

  // What is signed for one attempt.
  function SignedClaims(b: Bridge, peer: Peer, task: Task, sourceBot: string, requestId: string,
                        nowMs: nat, nonce: string): Claims
    requires b.identity.Some? && peer.host.Some? && peer.auth.Some?
  {
    Claims(b.identity.value, peer.name, peer.auth.value.keyId, Lower(peer.host.value), Upper("POST"), "/api/talk",
           sourceBot, TrimmedIssuer(task), Some(StrOr(task.botName, "")), Some(StrOr(task.chatId, "")), Some(requestId),
           Encoded(Outbound(task, sourceBot, requestId)), nowMs / 1000, nowMs / 1000 + TTL_SECONDS, nonce)
  }

  // The request that goes out, or nothing when forwarding throws.
  function ForwardTask(b: Bridge, peer: Peer, task: Task, uuid: string, nowMs: nat, nonce: string): Option<Request> {
    if peer.auth.None? || !DispatchMayGo(b, peer.auth.value, task) then None
    else
      var auth := peer.auth.value;
      var asked := StrOr(task.requestId, "");
      var requestId := if IsIdText(asked) then asked else uuid;
      var sourceBot := ResolveSourceBot(b, auth, task.sourceBot);
      var targetBot := StrOr(task.botName, "");
      var chatId := StrOr(task.chatId, "");
      if sourceBot.None? || targetBot == "" || '/' in targetBot || chatId == ""
         || b.identity.None? || peer.host.None? then None
      else
        var claims := SignedClaims(b, peer, task, sourceBot.value, requestId, nowMs, nonce);
        match CreateAuthorization(claims, auth.secret)
        case None => None
        case Some(a) => Some(Request(a, "POST", "/api/talk", peer.host, Some("peer"), claims.body))
  }

  // ---------- Checking ----------

  function FindRotationKey(keys: seq<Key>, kid: string, nowMs: nat): Option<string> {
    if keys == [] then None
    else if keys[0].keyId == kid && keys[0].acceptUntil.Some? && keys[0].acceptUntil.value >= nowMs then Some(keys[0].secret)
    else FindRotationKey(keys[1..], kid, nowMs)
  }

  function FindKey(auth: Auth, kid: string, nowMs: nat): Option<string> {
    if auth.keyId == kid then Some(auth.secret) else FindRotationKey(auth.acceptKeys, kid, nowMs)
  }

  predicate AllowedRoute(verb: string, route: RouteKind) {
    || (Upper(verb) == "POST" && (route.Talk? || route.Tasks?))
    || (Upper(verb) == "GET" && (route.Listing? || route.TalkStatus?))
  }

  predicate TaskMatches(b: Bridge, task: Task, c: Claims) {
    && task.botName.Str? && task.botName.value != "" && '/' !in task.botName.value
    && Some(task.botName.value) == c.targetBot
    && task.chatId.Str? && task.chatId.value != "" && Some(task.chatId.value) == c.chatId
    && task.requestId.Str? && IsIdText(task.requestId.value) && Some(task.requestId.value) == c.taskId
    && task.sourceBot == Str(c.sourceBot)
    && task.isAsync == True && task.callbackBotName == Missing && task.callbackChatId == Missing
    && Issuer(task) == c.rulesPackIssuer
    && task.botName.value in b.localBots
  }

  function KeyAndClock(auth: Auth, a: Authorization, nowMs: nat): Option<Checked>
    requires a.Capability?
  {
    var c := a.claims;
    var now := nowMs / 1000;
    if c.kid in auth.revokedKeyIds then Some(Fail(Revoked))
    else
      match FindKey(auth, c.kid, nowMs)
      case None => Some(Fail(UnknownKey))
      case Some(secret) =>
        if !SignatureOk(a, secret) then Some(Fail(BadSignature))
        else if c.exp <= now || c.exp <= c.iat then Some(Fail(Expired))
        else if c.iat > now + 5 then Some(Fail(NotYetValid))
        else if c.exp - c.iat > TTL_SECONDS + 5 then Some(Fail(Expired))
        else None
  }

  function Bindings(b: Bridge, w: World, auth: Auth, r: Request): Option<Checked>
    requires r.authorization.Capability?
  {
    var c := r.authorization.claims;
    var host := Lower(Trimmed(r.host));
    if b.identity != Some(c.aud) then Some(Deny(Audience))
    else if host == "" || Lower(c.host) != host then Some(Deny(Code.Host))
    else if r.origin != Some("peer") || !AllowedRoute(r.verb, w.route(r.path))
            || c.verb != Upper(r.verb) || c.path != r.path then Some(Deny(Code.Route))
    else if c.body != r.body then Some(Deny(Code.Body))
    else if auth.allowedSourceBots != [] && c.sourceBot !in auth.allowedSourceBots then Some(Deny(SourceScope))
    else if c.targetBot.GetOr("") != "" && auth.allowedTargetBots != []
            && c.targetBot.value !in auth.allowedTargetBots then Some(Deny(TargetScope))
    else None
  }

  function Content(b: Bridge, w: World, r: Request): Option<Checked>
    requires r.authorization.Capability?
  {
    var c := r.authorization.claims;
    if c.verb == "POST" then
      match r.body
      case Garbage(_) => Some(Deny(Code.Body))
      case NullBody => Some(Thrown)
      case Encoded(task) => if TaskMatches(b, task, c) then None else Some(Deny(Code.Body))
    else
      match w.route(r.path)
      case TalkStatus(None) => Some(Thrown)
      case TalkStatus(Some(id)) => if id == "" || c.taskId != Some(id) then Some(Deny(Code.Route)) else None
      case _ =>
        if c.targetBot.GetOr("") != "" || c.chatId.GetOr("") != "" || c.taskId.GetOr("") != ""
        then Some(Deny(Code.Route)) else None
  }

  // Everything but the replay table.
  function Check(b: Bridge, w: World, r: Request, nowMs: nat): Checked {
    var unparsed := ParseFailure(r.authorization, w.encodedLength);
    if unparsed.Some? then unparsed.value
    else
      var c := r.authorization.claims;
      if c.iss !in b.peers || b.peers[c.iss].auth.None? then Fail(UnknownIssuer)
      else
        var auth := b.peers[c.iss].auth.value;
        var early := KeyAndClock(auth, r.authorization, nowMs);
        if early.Some? then early.value
        else
          var binding := Bindings(b, w, auth, r);
          if binding.Some? then binding.value
          else
            var content := Content(b, w, r);
            if content.Some? then content.value else Passed(c)
  }

  // ---------- Sign and verify ----------

  // Whether what `sender` forwards to `peer` passes at `receiver`.
  predicate Compatible(sender: Bridge, receiver: Bridge, w: World, peer: Peer, task: Task, claims: Claims,
                       sentMs: nat, nowMs: nat)
    requires sender.identity.Some? && peer.auth.Some? && peer.host.Some?
  {
    // the claims are complete and fit the header
    && IsClaims(claims) && w.encodedLength(claims) <= MAX_ENCODED_LENGTH
    // the receiver knows the sender under its own name, and the key
    && sender.identity.value in receiver.peers
    && receiver.peers[sender.identity.value].auth.Some?
    && (var auth := receiver.peers[sender.identity.value].auth.value;
        && peer.auth.value.keyId !in auth.revokedKeyIds
        && FindKey(auth, peer.auth.value.keyId, nowMs) == Some(peer.auth.value.secret)
        && (auth.allowedSourceBots != [] ==> claims.sourceBot in auth.allowedSourceBots)
        && (auth.allowedTargetBots != [] ==> StrOr(task.botName, "") in auth.allowedTargetBots))
    // the clocks agree to 5 seconds, and the request arrives within its 30
    && sentMs / 1000 - 5 <= nowMs / 1000 < sentMs / 1000 + TTL_SECONDS
    // the sender calls the receiver by its name and host
    && receiver.identity == Some(peer.name)
    && Lower(Trim(peer.host.value)) == Lower(peer.host.value)
    // the receiver runs the bot, and the issuer needs no trimming
    && StrOr(task.botName, "") in receiver.localBots
    && TrimmedIssuer(task) == Issuer(task)
  }

  lemma ForwardedForm(sender: Bridge, peer: Peer, task: Task, uuid: string, sentMs: nat, nonce: string)
    requires IsIdText(uuid)
    requires ForwardTask(sender, peer, task, uuid, sentMs, nonce).Some?
    ensures sender.identity.Some? && peer.auth.Some? && peer.host.Some?
    ensures var r := ForwardTask(sender, peer, task, uuid, sentMs, nonce).value;
            && r.authorization.Capability?
            && (var c := r.authorization.claims;
                && |peer.auth.value.secret| >= MIN_SECRET_LENGTH
                && r.authorization.signature == Mac(peer.auth.value.secret, c)
                && r == Request(r.authorization, "POST", "/api/talk", peer.host, Some("peer"), c.body)
                && (exists requestId :: IsIdText(requestId) && c.taskId == Some(requestId)
                     && c == SignedClaims(sender, peer, task, c.sourceBot, requestId, sentMs, nonce))
                && StrOr(task.botName, "") != "" && '/' !in StrOr(task.botName, "") && StrOr(task.chatId, "") != "")
  {
  }

  lemma BindingsAgree(sender: Bridge, receiver: Bridge, w: World, peer: Peer, task: Task, r: Request, auth: Auth,
                      requestId: string, sentMs: nat, nonce: string)
    requires sender.identity.Some? && peer.auth.Some? && peer.host.Some? && r.authorization.Capability?
    requires w.route("/api/talk") == Talk
    requires var c := r.authorization.claims;
             && r == Request(r.authorization, "POST", "/api/talk", peer.host, Some("peer"), c.body)
             && c == SignedClaims(sender, peer, task, c.sourceBot, requestId, sentMs, nonce)
             && c.host != "" && StrOr(task.botName, "") != ""
    ensures Bindings(receiver, w, auth, r).None?
            <==> && receiver.identity == Some(peer.name)
                 && Lower(Trim(peer.host.value)) == Lower(peer.host.value)
                 && (auth.allowedSourceBots != [] ==> r.authorization.claims.sourceBot in auth.allowedSourceBots)
                 && (auth.allowedTargetBots != [] ==> StrOr(task.botName, "") in auth.allowedTargetBots)
  {
  }

  lemma ContentAgrees(sender: Bridge, receiver: Bridge, w: World, peer: Peer, task: Task, r: Request,
                      requestId: string, sentMs: nat, nonce: string)
    requires sender.identity.Some? && peer.auth.Some? && peer.host.Some? && r.authorization.Capability?
    requires IsIdText(requestId)
    requires var c := r.authorization.claims;
             && r.body == c.body
             && c == SignedClaims(sender, peer, task, c.sourceBot, requestId, sentMs, nonce)
             && StrOr(task.botName, "") != "" && '/' !in StrOr(task.botName, "") && StrOr(task.chatId, "") != ""
    ensures Content(receiver, w, r).None?
            <==> StrOr(task.botName, "") in receiver.localBots && TrimmedIssuer(task) == Issuer(task)
  {
  }

  lemma ClockAgrees(auth: Auth, peer: Peer, a: Authorization, sentMs: nat, nowMs: nat)
    requires peer.auth.Some? && a.Capability? && a.signature == Mac(peer.auth.value.secret, a.claims)
    requires |peer.auth.value.secret| >= MIN_SECRET_LENGTH
    requires a.claims.kid == peer.auth.value.keyId
    requires a.claims.iat == sentMs / 1000 && a.claims.exp == sentMs / 1000 + TTL_SECONDS
    ensures KeyAndClock(auth, a, nowMs).None?
            <==> && peer.auth.value.keyId !in auth.revokedKeyIds
                 && FindKey(auth, peer.auth.value.keyId, nowMs) == Some(peer.auth.value.secret)
                 && sentMs / 1000 - 5 <= nowMs / 1000 < sentMs / 1000 + TTL_SECONDS
  {
  }

  // A forwarded task passes the checks of the receiving bridge, with the very claims that
  // were signed, exactly when the two bridges are compatible.
  lemma ForwardedTaskPassesIff(sender: Bridge, receiver: Bridge, w: World, peer: Peer, task: Task, uuid: string,
                               sentMs: nat, nonce: string, nowMs: nat)
    requires IsIdText(uuid) && w.route("/api/talk") == Talk
    requires ForwardTask(sender, peer, task, uuid, sentMs, nonce).Some?
    ensures sender.identity.Some? && peer.auth.Some? && peer.host.Some?
    ensures var r := ForwardTask(sender, peer, task, uuid, sentMs, nonce).value;
            && r.authorization.Capability?
            && (Check(receiver, w, r, nowMs) == Passed(r.authorization.claims)
                <==> Compatible(sender, receiver, w, peer, task, r.authorization.claims, sentMs, nowMs))
  {
    ForwardedForm(sender, peer, task, uuid, sentMs, nonce);
    var r := ForwardTask(sender, peer, task, uuid, sentMs, nonce).value;
    var c := r.authorization.claims;
    var requestId :| IsIdText(requestId) && c.taskId == Some(requestId)
                     && c == SignedClaims(sender, peer, task, c.sourceBot, requestId, sentMs, nonce);
    if ParseFailure(r.authorization, w.encodedLength).None?
       && c.iss in receiver.peers && receiver.peers[c.iss].auth.Some? {
      var auth := receiver.peers[c.iss].auth.value;
      ClockAgrees(auth, peer, r.authorization, sentMs, nowMs);
      BindingsAgree(sender, receiver, w, peer, task, r, auth, requestId, sentMs, nonce);
      ContentAgrees(sender, receiver, w, peer, task, r, requestId, sentMs, nonce);
    }
  }

  // What passes was signed, with a key the issuer has at that time, for this very request.
  lemma PassedWasSigned(b: Bridge, w: World, r: Request, nowMs: nat)
    requires Check(b, w, r, nowMs).Passed?
    ensures r.authorization.Capability? && Check(b, w, r, nowMs).claims == r.authorization.claims
    ensures var c := r.authorization.claims;
            && c.iss in b.peers && b.peers[c.iss].auth.Some?
            && (var auth := b.peers[c.iss].auth.value;
                exists secret :: FindKey(auth, c.kid, nowMs) == Some(secret) && r.authorization.signature == Mac(secret, c))
            && c.body == r.body && c.path == r.path && c.verb == Upper(r.verb) && b.identity == Some(c.aud)
            && nowMs / 1000 < c.exp && c.iat <= nowMs / 1000 + 5 && c.exp - c.iat <= TTL_SECONDS + 5
  {
  }

  // ---------- Replay ----------

  // A request that was accepted, and when, in seconds.
  datatype Accepted = Accepted(claims: Claims, at: int)

  function ReplayKey(c: Claims): string {
    c.iss + ":" + c.kid + ":" + c.nonce
  }

  predicate Holds(history: seq<Accepted>, key: string, exp: int) {
    exists i :: 0 <= i < |history| && ReplayKey(history[i].claims) == key && history[i].claims.exp == exp
  }

  // What a table that forgets nothing would say.
  predicate Replayed(history: seq<Accepted>, c: Claims, now: int) {
    exists i :: 0 <= i < |history| && ReplayKey(history[i].claims) == ReplayKey(c) && history[i].claims.exp > now
  }

  // Accepted by the checks at its time.
  predicate Timely(a: Accepted) {
    a.at < a.claims.exp <= a.at + 40
  }

  // The table holds every acceptance that has not expired, and nothing that never was.
  predicate Remembers(table: map<string, int>, history: seq<Accepted>, now: int) {
    && (forall i :: 0 <= i < |history| && history[i].claims.exp > now ==>
          Lookup(table, ReplayKey(history[i].claims)) == Some(history[i].claims.exp))
    && (forall k :: k in table ==> Holds(history, k, table[k]))
  }

  predicate Sound(history: seq<Accepted>, now: int) {
    && (forall i :: 0 <= i < |history| ==> Timely(history[i]) && history[i].at <= now)
    && (forall i, j :: 0 <= i < j < |history| ==> history[i].claims != history[j].claims)
  }

  function Unexpired(table: map<string, int>, now: int): map<string, int> {
    map k | k in table && table[k] > now :: table[k]
  }

  lemma PruneRemembers(table: map<string, int>, history: seq<Accepted>, before: int, now: int, c: Claims)
    requires Remembers(table, history, before) && before <= now
    ensures Remembers(Unexpired(table, now), history, now)
    ensures ReplayKey(c) in Unexpired(table, now) <==> Replayed(history, c, now)
  {
  }

  lemma AcceptRemembers(table: map<string, int>, history: seq<Accepted>, now: int, c: Claims)
    requires Remembers(table, history, now) && ReplayKey(c) !in table
    ensures Remembers(table[ReplayKey(c) := c.exp], history + [Accepted(c, now)], now)
  {
    var more := history + [Accepted(c, now)];
    assert more[|history|].claims == c;
    forall k | k in table ensures Holds(more, k, table[k]) {
      var i :| 0 <= i < |history| && ReplayKey(history[i].claims) == k && history[i].claims.exp == table[k];
      assert more[i] == history[i];
    }
  }

  // The same claims never pass twice: a request that was accepted before and has not
  // expired is still in the table.
  lemma AcceptIsSound(table: map<string, int>, history: seq<Accepted>, now: int, c: Claims)
    requires Remembers(table, history, now) && Sound(history, now) && ReplayKey(c) !in table
    requires now < c.exp <= now + 40
    ensures Sound(history + [Accepted(c, now)], now)
  {
  }

  // What is still in a pruned table was accepted less than 40 seconds ago.
  lemma RetainedIsRecent(table: map<string, int>, history: seq<Accepted>, now: int, k: string)
    requires Remembers(table, history, now) && Sound(history, now) && k in table && table[k] > now
    ensures exists i :: 0 <= i < |history| && ReplayKey(history[i].claims) == k && now - 40 < history[i].at <= now
  {
  }

  class PeerTable {
    const bridge: Bridge
    const world: World
    var replayNonces: map<string, int>
    ghost var history: seq<Accepted>
    ghost var clock: nat

    ghost predicate Valid()
      reads this
    {
      Remembers(replayNonces, history, clock) && Sound(history, clock)
    }

    constructor (bridge: Bridge, world: World)
      ensures Valid() && history == [] && replayNonces == map[] && this.bridge == bridge && this.world == world
    {
      this.bridge := bridge;
      this.world := world;
      replayNonces, history, clock := map[], [], 0;
    }

    method PruneReplayNonces(now: int)
      modifies `replayNonces
      ensures replayNonces == Unexpired(old(replayNonces), now)
    {
      ghost var was := replayNonces;
      var todo := replayNonces.Keys;
      while todo != {}
        invariant todo <= was.Keys
        invariant replayNonces == map k | k in was && (k in todo || was[k] > now) :: was[k]
        decreases |todo|
      {
        var k :| k in todo;
        if replayNonces[k] <= now {
          replayNonces := Without(replayNonces, k);
        }
        todo := todo - {k};
      }
    }

    // The pruned table decides as one that forgets nothing.
    method RecordNonce(c: Claims, now: nat) returns (replayed: bool)
      requires Valid() && clock <= now < c.exp <= now + 40
      modifies this
      ensures Valid() && clock == now
      ensures replayed <==> Replayed(old(history), c, now)
      ensures history == if replayed then old(history) else old(history) + [Accepted(c, now)]
      ensures forall k :: k in replayNonces ==> replayNonces[k] > now
    {
      PruneRemembers(replayNonces, history, clock, now, c);
      PruneReplayNonces(now);
      clock := now;
      replayed := ReplayKey(c) in replayNonces;
      if !replayed {
        AcceptRemembers(replayNonces, history, now, c);
        AcceptIsSound(replayNonces, history, now, c);
        replayNonces := replayNonces[ReplayKey(c) := c.exp];
        history := history + [Accepted(c, now)];
      }
    }

    method VerifyInboundPeerRequest(r: Request, nowMs: nat) returns (result: Checked)
      requires Valid() && clock <= nowMs / 1000
      modifies this
      ensures Valid() && clock == nowMs / 1000
      ensures var checked := Check(bridge, world, r, nowMs);
              result == if checked.Passed? && Replayed(old(history), checked.claims, nowMs / 1000) then Fail(Code.Replay)
                        else checked
      ensures history == if result.Passed? then old(history) + [Accepted(result.claims, nowMs / 1000)] else old(history)
    {
      result := Check(bridge, world, r, nowMs);
      if result.Passed? {
        PassedWasSigned(bridge, world, r, nowMs);
        var replayed := RecordNonce(result.claims, nowMs / 1000);
        if replayed {
          result := Fail(Code.Replay);
        }
      } else {
        clock := nowMs / 1000;
      }
    }
  }
}
