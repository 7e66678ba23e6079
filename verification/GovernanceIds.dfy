/**
 What names an instance: the key it is found by, and the text its id is the digest of.
 The digest is taken as injective. The text is not.
 */
module GovernanceIds {
  import opened Text

  datatype Scope = ChatScope | ProjectScope | GlobalScope

  datatype Key = Key(template: string, scope: Scope, scopeKey: string)

  function ScopeText(scope: Scope): string {
    match scope
    case ChatScope => "chat"
    case ProjectScope => "project"
    case GlobalScope => "global"
  }

  // A template and a scope, before the scope key.
  function Owner(template: string, scope: Scope): string {
    template + ":" + ScopeText(scope)
  }

  function Tail(k: Key): string {
    ScopeText(k.scope) + ":" + k.scopeKey
  }

  // What the id of an instance is the digest of.
  function IdText(k: Key): string {
    Owner(k.template, k.scope) + ":" + k.scopeKey
  }

  lemma IdTextSplits(k: Key)
    ensures IdText(k) == k.template + ":" + Tail(k)
  {
  }

  lemma ScopeTextHasNoColon(scope: Scope)
    ensures ':' !in ScopeText(scope)
  {
  }

  // Two keys of one template never share an id.
  lemma OneTemplateNeverCollides(j: Key, k: Key)
    requires j.template == k.template && IdText(j) == IdText(k)
    ensures j == k
  {
    IdTextSplits(j);
    IdTextSplits(k);
    SameTail(j.template + ":", Tail(j), Tail(k));
    ScopeTextHasNoColon(j.scope);
    ScopeTextHasNoColon(k.scope);
    CutAtColon(ScopeText(j.scope), j.scopeKey, ScopeText(k.scope), k.scopeKey);
  }

  // The template of `k` goes on where template and scope of `j` end, and the scope key of
  // `j` says the rest.
  predicate Shadows(j: Key, k: Key) {
    var owner := Owner(j.template, j.scope);
    || (k.template == owner && j.scopeKey == Tail(k))
    || (owner + ":" <= k.template && j.scopeKey == k.template[|owner| + 1..] + ":" + Tail(k))
  }

  lemma ShadowsCollides(j: Key, k: Key)
    requires Shadows(j, k)
    ensures IdText(j) == IdText(k)
  {
    var owner := Owner(j.template, j.scope);
    IdTextSplits(k);
    if k.template != owner {
      SplitLonger(owner, j.scopeKey, k.template, Tail(k));
    }
  }

  lemma NotWithinOwner(a: string, scope: Scope, b: string)
    requires a + ":" <= b
    ensures !(b + ":" <= Owner(a, scope))
  {
    var owner := Owner(a, scope);
    ScopeTextHasNoColon(scope);
    assert forall i :: |a| < i < |owner| ==> owner[i] == ScopeText(scope)[i - |a| - 1];
    assert forall i :: |a| < i < |owner| ==> owner[i] != ':';
    assert (b + ":")[|b|] == ':';
  }

  lemma CollidesShadows(j: Key, k: Key)
    requires IdText(j) == IdText(k) && j.template + ":" <= k.template
    ensures Shadows(j, k)
  {
    var owner := Owner(j.template, j.scope);
    IdTextSplits(k);
    if k.template == owner {
      SameTail(owner + ":", j.scopeKey, Tail(k));
    } else {
      CollisionIsPrefix(owner, j.scopeKey, k.template, Tail(k));
      NotWithinOwner(j.template, j.scope, k.template);
      SplitLonger(owner, j.scopeKey, k.template, Tail(k));
    }
  }

  // Two keys share an id exactly when one shadows the other.
  lemma IdsCollideIff(j: Key, k: Key)
    requires j != k
    ensures IdText(j) == IdText(k) <==> Shadows(j, k) || Shadows(k, j)
  {
    if IdText(j) == IdText(k) {
      IdTextSplits(j);
      IdTextSplits(k);
      if j.template == k.template {
        OneTemplateNeverCollides(j, k);
      } else {
        CollisionIsPrefix(j.template, Tail(j), k.template, Tail(k));
        if j.template + ":" <= k.template {
          CollidesShadows(j, k);
        } else {
          CollidesShadows(k, j);
        }
      }
    }
    if Shadows(j, k) {
      ShadowsCollides(j, k);
    }
    if Shadows(k, j) {
      ShadowsCollides(k, j);
    }
  }

  // The input for which it fails.
  lemma IdsCanCollide()
    ensures var (j, k) := (Key("ops", ChatScope, "chat:x"), Key("ops:chat", ChatScope, "x"));
            j != k && IdText(j) == IdText(k) && Allowed(j) && Allowed(k)
  {
    var (j, k) := (Key("ops", ChatScope, "chat:x"), Key("ops:chat", ChatScope, "x"));
    assert Owner("ops", ChatScope) == "ops:chat";
    ShadowsCollides(j, k);
  }

  // The keys that names and scope keys can make up: trimmed, and one global key only.
  predicate Allowed(k: Key) {
    Trimmed(k.template) && Trimmed(k.scopeKey) && (k.scope == GlobalScope ==> k.scopeKey == "global")
  }

  predicate Trimmed(s: string) {
    s != "" && !IsSpace(s[0]) && !IsSpace(s[|s| - 1])
  }

  predicate Blocks(a: string, scope: Scope, b: string) {
    var owner := Owner(a, scope);
    && scope != GlobalScope
    && (|| b == owner
        || (owner + ":" <= b && (|b| == |owner| + 1 || !IsSpace(b[|owner| + 1]))))
  }


  predicate Collide(j: Key, k: Key) {
    Allowed(j) && Allowed(k) && IdText(j) == IdText(k)
  }

  lemma ShadowingKeyHasColon(j: Key, k: Key)
    requires Shadows(j, k)
    ensures ':' in j.scopeKey
  {
    var owner := Owner(j.template, j.scope);
    assert Tail(k)[|ScopeText(k.scope)|] == ':';
    if k.template != owner {
      assert j.scopeKey[|k.template| - |owner| - 1] == ':';
    }
  }

  lemma CollideBlocks(j: Key, k: Key)
    requires Collide(j, k) && Shadows(j, k)
    ensures Blocks(j.template, j.scope, k.template)
  {
    var owner := Owner(j.template, j.scope);
    ShadowingKeyHasColon(j, k);
    if k.template != owner && |k.template| > |owner| + 1 {
      assert j.scopeKey[0] == k.template[|owner| + 1];
    }
  }

  // A scope key that takes up what the longer template adds.
  function Rest(a: string, scope: Scope, b: string, tail: string): string
    requires Blocks(a, scope, b)
  {
    if b == Owner(a, scope) then tail else b[|Owner(a, scope)| + 1..] + ":" + tail
  }

  lemma RestIsTrimmed(a: string, scope: Scope, b: string, tail: string)
    requires Blocks(a, scope, b) && Trimmed(tail)
    ensures Trimmed(Rest(a, scope, b, tail))
  {
    var rest := Rest(a, scope, b, tail);
    if b != Owner(a, scope) {
      assert rest[|rest| - 1] == tail[|tail| - 1];
      assert rest[0] == if |b| == |Owner(a, scope)| + 1 then ':' else b[|Owner(a, scope)| + 1];
    }
  }

  lemma BlocksCollide(a: string, sa: Scope, b: string, sb: Scope)
    requires Trimmed(a) && Trimmed(b) && Blocks(a, sa, b)
    ensures exists x, y :: Collide(Key(a, sa, x), Key(b, sb, y))
  {
    var k := Key(b, sb, "global");
    var j := Key(a, sa, Rest(a, sa, b, Tail(k)));
    assert Trimmed(Tail(k)) by {
      assert Tail(k)[|Tail(k)| - 1] == 'l';
    }
    RestIsTrimmed(a, sa, b, Tail(k));
    ShadowsCollides(j, k);
    assert Collide(j, k);
  }

  // Two templates can get in each other's way exactly when template and scope of one begin
  // the name of the other in this way.
  lemma TemplatesCollideIff(a: string, sa: Scope, b: string, sb: Scope)
    requires Trimmed(a) && Trimmed(b) && a != b
    ensures (exists x, y :: Collide(Key(a, sa, x), Key(b, sb, y))) <==> Blocks(a, sa, b) || Blocks(b, sb, a)
  {
    if x, y :| Collide(Key(a, sa, x), Key(b, sb, y)) {
      IdsCollideIff(Key(a, sa, x), Key(b, sb, y));
      if Shadows(Key(a, sa, x), Key(b, sb, y)) {
        CollideBlocks(Key(a, sa, x), Key(b, sb, y));
      } else {
        CollideBlocks(Key(b, sb, y), Key(a, sa, x));
      }
    }
    if Blocks(a, sa, b) {
      BlocksCollide(a, sa, b, sb);
    } else if Blocks(b, sb, a) {
      BlocksCollide(b, sb, a, sa);
      var y, x :| Collide(Key(b, sb, y), Key(a, sa, x));
      assert Collide(Key(a, sa, x), Key(b, sb, y));
    }
  }

  // ---------- Team names ----------

  // Of a name: a shortened readable form, and the first digits of its digest.
  datatype Naming = Naming(readable: string -> string, digits6: string -> string, digits8: string -> string)

  ghost predicate Injective(naming: Naming) {
    && (forall a :: |naming.digits6(a)| == 6 && |naming.digits8(a)| == 8)
    && (forall a, b :: naming.digits6(a) == naming.digits6(b) ==> a == b)
    && (forall a, b :: naming.digits8(a) == naming.digits8(b) ==> a == b)
  }

  function TemplatePart(naming: Naming, template: string): string {
    "atg-" + naming.readable(template) + "-" + naming.digits6(template)
  }

  function KeyPart(naming: Naming, scopeKey: string): string {
    naming.readable(scopeKey) + "-" + naming.digits8(scopeKey)
  }

  function TeamText(naming: Naming, k: Key): string {
    TemplatePart(naming, k.template) + "-" + ScopeText(k.scope) + "-" + KeyPart(naming, k.scopeKey)
  }

  lemma SameEnd(a: string, x: string, b: string, y: string)
    requires |x| == |y| && a + x == b + y
    ensures a == b && x == y
  {
    assert (a + x)[|a|..] == x && (b + y)[|b|..] == y;
    assert (a + x)[..|a|] == a && (b + y)[..|b|] == b;
  }

  lemma SameScopeEnd(a: string, r: Scope, b: string, s: Scope)
    requires a + ScopeText(r) == b + ScopeText(s)
    ensures a == b && r == s
  {
    var t := a + ScopeText(r);
    assert t == b + ScopeText(s);
    assert t[|t| - 2] == ScopeText(r)[|ScopeText(r)| - 2];
    assert t[|t| - 2] == ScopeText(s)[|ScopeText(s)| - 2];
    assert t[|t| - 1] == ScopeText(r)[|ScopeText(r)| - 1];
    assert t[|t| - 1] == ScopeText(s)[|ScopeText(s)| - 1];
    SameEnd(a, ScopeText(r), b, ScopeText(s));
  }

  // Unlike the ids, the names of the teams tell all keys apart, whatever the readable parts
  // are: every digest stands at a fixed distance from an end.
  lemma TeamNamesDiffer(naming: Naming, j: Key, k: Key)
    requires Injective(naming) && TeamText(naming, j) == TeamText(naming, k)
    ensures j == k
  {
    var (a, b) := (TemplatePart(naming, j.template), TemplatePart(naming, k.template));
    var head := (t: string, s: Scope, key: string) => t + "-" + ScopeText(s) + "-" + naming.readable(key) + "-";
    assert TeamText(naming, j) == head(a, j.scope, j.scopeKey) + naming.digits8(j.scopeKey);
    assert TeamText(naming, k) == head(b, k.scope, k.scopeKey) + naming.digits8(k.scopeKey);
    SameEnd(head(a, j.scope, j.scopeKey), naming.digits8(j.scopeKey),
            head(b, k.scope, k.scopeKey), naming.digits8(k.scopeKey));
    var tail := "-" + KeyPart(naming, j.scopeKey);
    assert TeamText(naming, j) == (a + "-" + ScopeText(j.scope)) + tail;
    assert TeamText(naming, k) == (b + "-" + ScopeText(k.scope)) + tail;
    SameEnd(a + "-" + ScopeText(j.scope), tail, b + "-" + ScopeText(k.scope), tail);
    SameScopeEnd(a + "-", j.scope, b + "-", k.scope);
    SameEnd(a, "-", b, "-");
    SameEnd("atg-" + naming.readable(j.template) + "-", naming.digits6(j.template),
            "atg-" + naming.readable(k.template) + "-", naming.digits6(k.template));
  }
}
