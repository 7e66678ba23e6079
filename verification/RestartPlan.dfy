/** The durable plan of a controlled restart, and the keys of its participants. */
module RestartPlan {
  import opened Common
  import opened Text

  // Who takes part: a chat of a bot on a platform.
  datatype Key = Key(platform: string, bot: string, chat: string)

  datatype Notice = Delivered | Undelivered | NotSent

  datatype Continuation = Scheduled | Unneeded | Broken

  datatype Participant = Participant(
    key: Key, wasActive: bool, sendCards: bool, prepareNotice: Option<Notice>,
    completionNotice: Option<Notice>, continuation: Option<Continuation>, recoveredAt: Option<int>)

  datatype PlanStatus = Preparing | Prepared | Cancelled | Completed

  datatype Plan = Plan(
    requestId: string, status: PlanStatus, resume: bool, force: bool, participants: seq<Participant>, updatedAt: int)

  predicate DistinctKeys(ps: seq<Participant>) {
    forall i, j :: 0 <= i < j < |ps| ==> ps[i].key != ps[j].key
  }

  // ---------- Continuation keys ----------

  predicate StartsWith(s: string, prefix: string) {
    prefix <= s
  }

  // Chats of internal runtimes, which recover on their own.
  predicate IsInternalChat(chat: string) {
    || StartsWith(chat, "team:") || StartsWith(chat, "teaminst:")
    || StartsWith(chat, "worker:") || StartsWith(chat, "worker-")
    || StartsWith(chat, "arc:") || StartsWith(chat, "arc-")
  }

  function ContinuationKey(requestId: string, k: Key): string {
    "restart-resume:" + requestId + ":" + k.platform + ":" + k.bot + ":" + k.chat
  }

  // Keys tell participants apart when platforms and bot names have no colon.
  lemma KeysAreDistinct(requestId: string, j: Key, k: Key)
    requires ':' !in j.platform && ':' !in k.platform && ':' !in j.bot && ':' !in k.bot
    requires ContinuationKey(requestId, j) == ContinuationKey(requestId, k)
    ensures j == k
  {
    var head := "restart-resume:" + requestId + ":";
    var (x, y) := (j.bot + ":" + j.chat, k.bot + ":" + k.chat);
    assert ContinuationKey(requestId, j) == head + (j.platform + ":" + x);
    assert ContinuationKey(requestId, k) == head + (k.platform + ":" + y);
    SameTail(head, j.platform + ":" + x, k.platform + ":" + y);
    CutAtColon(j.platform, x, k.platform, y);
    CutAtColon(j.bot, j.chat, k.bot, k.chat);
  }

  function FullName(platform: string, bot: string): string {
    platform + ":" + bot
  }

  lemma KeyTail(requestId: string, platform: string, bot: string, chat: string)
    ensures ContinuationKey(requestId, Key(platform, bot, chat))
            == "restart-resume:" + requestId + ":" + (FullName(platform, bot) + ":" + chat)
  {
  }

  // With colons allowed, two bots can get the same key exactly when their full names are
  // the same text, or one of them, followed by a colon, begins the other.
  lemma BotsCollideIff(requestId: string, p: string, a: string, q: string, b: string)
    requires (p, a) != (q, b)
    ensures (exists x, y :: ContinuationKey(requestId, Key(p, a, x)) == ContinuationKey(requestId, Key(q, b, y)))
            <==> (|| FullName(p, a) == FullName(q, b)
                  || FullName(p, a) + ":" <= FullName(q, b) || FullName(q, b) + ":" <= FullName(p, a))
  {
    var (f, g) := (FullName(p, a), FullName(q, b));
    if x, y :| ContinuationKey(requestId, Key(p, a, x)) == ContinuationKey(requestId, Key(q, b, y)) {
      KeyTail(requestId, p, a, x);
      KeyTail(requestId, q, b, y);
      SameTail("restart-resume:" + requestId + ":", f + ":" + x, g + ":" + y);
      if f != g {
        CollisionIsPrefix(f, x, g, y);
      }
    }
    if f == g {
      KeyTail(requestId, p, a, "");
      KeyTail(requestId, q, b, "");
      assert ContinuationKey(requestId, Key(p, a, "")) == ContinuationKey(requestId, Key(q, b, ""));
    } else if f + ":" <= g {
      PrefixCollides(requestId, p, a, q, b);
    } else if g + ":" <= f {
      PrefixCollides(requestId, q, b, p, a);
    }
  }

  lemma PrefixCollides(requestId: string, p: string, a: string, q: string, b: string)
    requires FullName(p, a) + ":" <= FullName(q, b)
    ensures exists x, y :: ContinuationKey(requestId, Key(p, a, x)) == ContinuationKey(requestId, Key(q, b, y))
  {
    var (f, g) := (FullName(p, a), FullName(q, b));
    var x := g[|f| + 1..] + ":";
    assert x == g[|f| + 1..] + ":" + "";
    SplitLonger(f, x, g, "");
    KeyTail(requestId, p, a, x);
    KeyTail(requestId, q, b, "");
    assert ContinuationKey(requestId, Key(p, a, x)) == ContinuationKey(requestId, Key(q, b, ""));
  }
}
