/** The string methods of JavaScript that the components use. */
module Text {

  // The white space and line ends that `String.prototype.trim` removes.
  predicate IsSpace(c: char) {
    || '\U{0009}' <= c <= '\U{000D}' || c == ' ' || c == '\U{00A0}' || c == '\U{1680}'
    || '\U{2000}' <= c <= '\U{200A}' || c == '\U{2028}' || c == '\U{2029}' || c == '\U{202F}'
    || c == '\U{205F}' || c == '\U{3000}' || c == '\U{FEFF}'
  }

  predicate AllSpace(s: string) {
    forall i :: 0 <= i < |s| ==> IsSpace(s[i])
  }

  predicate IsCutOut(t: string, s: string, i: nat, j: nat) {
    i <= j <= |s| && t == s[i..j] && AllSpace(s[..i]) && AllSpace(s[j..])
  }

  lemma CutAfterFirst(t: string, s: string, i: nat, j: nat)
    requires s != "" && IsSpace(s[0]) && IsCutOut(t, s[1..], i, j)
    ensures IsCutOut(t, s, i + 1, j + 1)
  {
    assert s[1..][i..j] == s[i + 1..j + 1] && s[1..][j..] == s[j + 1..];
    assert s[..i + 1] == [s[0]] + s[1..][..i];
  }

  lemma CutBeforeLast(t: string, s: string, i: nat, j: nat)
    requires s != "" && IsSpace(s[|s| - 1]) && IsCutOut(t, s[..|s| - 1], i, j)
    ensures IsCutOut(t, s, i, j)
  {
    var r := s[..|s| - 1];
    assert r[i..j] == s[i..j] && r[..i] == s[..i];
    assert s[j..] == r[j..] + [s[|s| - 1]];
  }

  function Trim(s: string): (t: string)
    ensures t != "" ==> !IsSpace(t[0]) && !IsSpace(t[|t| - 1])
    ensures t == "" <==> AllSpace(s)
    ensures |t| <= |s|
    decreases |s|
  {
    if s == "" then ""
    else if IsSpace(s[0]) then Trim(s[1..])
    else if IsSpace(s[|s| - 1]) then Trim(s[..|s| - 1])
    else s
  }

  // White space is cut off at both ends, all of it, and nothing else is.
  lemma {:induction false} TrimCutsSpaceOnly(s: string)
    ensures exists i, j :: IsCutOut(Trim(s), s, i, j)
    ensures Trim(s) != "" ==> !IsSpace(Trim(s)[0]) && !IsSpace(Trim(s)[|Trim(s)| - 1])
    decreases |s|
  {
    if s == "" {
      assert IsCutOut(Trim(s), s, 0, 0);
    } else if IsSpace(s[0]) {
      TrimCutsSpaceOnly(s[1..]);
      var i: nat, j: nat :| IsCutOut(Trim(s), s[1..], i, j);
      CutAfterFirst(Trim(s), s, i, j);
    } else if IsSpace(s[|s| - 1]) {
      TrimCutsSpaceOnly(s[..|s| - 1]);
      var i: nat, j: nat :| IsCutOut(Trim(s), s[..|s| - 1], i, j);
      CutBeforeLast(Trim(s), s, i, j);
    } else {
      assert IsCutOut(Trim(s), s, 0, |s|);
    }
  }

  function LowerChar(c: char): char {
    if 'A' <= c <= 'Z' then c - 'A' + 'a' else c
  }

  // `toLowerCase` and `toUpperCase` on the letters that host names and methods are made of.
  function Lower(s: string): (t: string)
    ensures |t| == |s|
  {
    seq(|s|, i requires 0 <= i < |s| => LowerChar(s[i]))
  }

  function UpperChar(c: char): char {
    if 'a' <= c <= 'z' then c - 'a' + 'A' else c
  }

  function Upper(s: string): (t: string)
    ensures |t| == |s|
  {
    seq(|s|, i requires 0 <= i < |s| => UpperChar(s[i]))
  }

  // The characters of a request id.
  predicate IsIdChar(c: char) {
    'A' <= c <= 'Z' || 'a' <= c <= 'z' || '0' <= c <= '9' || c == '.' || c == '_' || c == ':' || c == '-'
  }

  predicate IsIdText(s: string) {
    1 <= |s| <= 128 && forall i :: 0 <= i < |s| ==> IsIdChar(s[i])
  }

  // ---------- Names joined by colons ----------

  lemma SameTail(head: string, a: string, b: string)
    requires head + a == head + b
    ensures a == b
  {
    assert (head + a)[|head|..] == a && (head + b)[|head|..] == b;
  }

  // Two strings cut at their first colon.
  lemma CutAtColon(a: string, x: string, b: string, y: string)
    requires ':' !in a && ':' !in b && a + ":" + x == b + ":" + y
    ensures a == b && x == y
  {
    var s := a + ":" + x;
    assert s == b + ":" + y;
    assert s[|a|] == ':' && s[|b|] == ':';
    assert forall i :: 0 <= i < |a| ==> s[i] == a[i];
    assert forall i :: 0 <= i < |b| ==> s[i] == b[i];
    assert |a| == |b|;
    assert a == s[..|a|] && b == s[..|b|];
    SameTail(a + ":", x, y);
  }

  lemma CollisionIsPrefix(a: string, x: string, b: string, y: string)
    requires a != b && a + ":" + x == b + ":" + y
    ensures a + ":" <= b || b + ":" <= a
  {
    var s := a + ":" + x;
    assert s == b + ":" + y;
    assert a == s[..|a|] && b == s[..|b|];
    assert s[|a|] == ':' && s[|b|] == ':';
    if |a| < |b| {
      assert s[..|b|][..|a| + 1] == a + ":";
    } else if |b| < |a| {
      assert s[..|a|][..|b| + 1] == b + ":";
    }
  }

  // The shorter name and a colon begin the longer one, so the rest of the longer name
  // stands at the head of what follows the shorter.
  lemma SplitLonger(a: string, x: string, b: string, y: string)
    requires a + ":" <= b
    ensures a + ":" + x == b + ":" + y <==> x == b[|a| + 1..] + ":" + y
  {
    var rest := b[|a| + 1..];
    assert b == a + ":" + rest;
    assert b + ":" + y == (a + ":") + (rest + ":" + y);
    if (a + ":") + x == (a + ":") + (rest + ":" + y) {
      SameTail(a + ":", x, rest + ":" + y);
    }
  }
}
