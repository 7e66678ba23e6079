/**
 What the canonical text keeps: all of a value, and of the order of its keys only that of
 keys which the collation ties. The text is read back piece by piece: no value's text
 continues another's.
 */
module CanonicalJsonProofs {
  import opened CanonicalJson

  // ---------- Which values ----------

  // A total preorder, which is what a locale comparison gives; it may hold two different
  // strings for equal.
  ghost predicate Preorder(le: Collation) {
    && (forall a, b :: le(a, b) || le(b, a))
    && (forall a, b, c :: le(a, b) && le(b, c) ==> le(a, c))
  }

  predicate Same(a: string, b: string, le: Collation) {
    le(a, b) && le(b, a)
  }

  predicate NumberChar(c: char) {
    '0' <= c <= '9' || c in "+-.eE"
  }

  predicate Lexeme(s: string) {
    s != "" && ('0' <= s[0] <= '9' || s[0] == '-') && forall c :: c in s ==> NumberChar(c)
  }

  // A value that a program can hold: numbers are numbers, and no object has a key twice.
  ghost predicate Actual(j: Json) {
    match j
    case Num(lexeme) => Lexeme(lexeme)
    case Arr(items) => forall i :: 0 <= i < |items| ==> Actual(items[i])
    case Obj(entries) => DistinctKeys(entries) && forall i :: 0 <= i < |entries| ==> Actual(entries[i].value)
    case _ => true
  }

  predicate DistinctKeys(entries: seq<Entry>) {
    forall i, j :: 0 <= i < j < |entries| ==> entries[i].key != entries[j].key
  }

  // ---------- The canonical form ----------

  function InsertEntry(e: Entry, es: seq<Entry>, le: Collation): seq<Entry> {
    if es == [] then [e]
    else if le(e.key, es[0].key) then [e] + es
    else [es[0]] + InsertEntry(e, es[1..], le)
  }

  function SortEntries(es: seq<Entry>, le: Collation): seq<Entry> {
    if es == [] then [] else InsertEntry(es[0], SortEntries(es[1..], le), le)
  }

  // The value with the entries of every object sorted.
  function Canon(j: Json, le: Collation): Json {
    match j
    case Arr(items) => Arr(CanonItems(items, le))
    case Obj(entries) => Obj(SortEntries(CanonEntries(entries, le), le))
    case _ => j
  }

  function CanonItems(items: seq<Json>, le: Collation): (r: seq<Json>)
    ensures |r| == |items|
  {
    if items == [] then [] else [Canon(items[0], le)] + CanonItems(items[1..], le)
  }

  function CanonEntries(entries: seq<Entry>, le: Collation): (r: seq<Entry>)
    ensures |r| == |entries|
  {
    if entries == [] then []
    else [Entry(entries[0].key, Canon(entries[0].value, le))] + CanonEntries(entries[1..], le)
  }

  // The text of a value as it stands, nothing sorted.
  function Plain(j: Json): string {
    match j
    case Null => "null"
    case Bool(b) => if b then "true" else "false"
    case Num(lexeme) => lexeme
    case Str(text) => Quote(text)
    case Arr(items) => "[" + PlainItems(items) + "]"
    case Obj(entries) => "{" + JoinPairs(PlainPairs(entries)) + "}"
  }

  function PlainItems(items: seq<Json>): string {
    if items == [] then ""
    else Plain(items[0]) + if |items| == 1 then "" else "," + PlainItems(items[1..])
  }

  function PlainPairs(entries: seq<Entry>): seq<Pair> {
    if entries == [] then []
    else [Pair(entries[0].key, Plain(entries[0].value))] + PlainPairs(entries[1..])
  }

  lemma {:induction false} InsertCommutes(e: Entry, es: seq<Entry>, le: Collation)
    ensures PlainPairs(InsertEntry(e, es, le)) == InsertPair(Pair(e.key, Plain(e.value)), PlainPairs(es), le)
  {
    if es != [] {
      assert ([e] + es)[1..] == es;
      var rest := InsertEntry(e, es[1..], le);
      assert ([es[0]] + rest)[1..] == rest;
      InsertCommutes(e, es[1..], le);
    }
  }

  lemma {:induction false} SortCommutes(es: seq<Entry>, le: Collation)
    ensures PlainPairs(SortEntries(es, le)) == SortPairs(PlainPairs(es), le)
  {
    if es != [] {
      SortCommutes(es[1..], le);
      InsertCommutes(es[0], SortEntries(es[1..], le), le);
    }
  }

  // The canonical text is the plain text of the canonical form.
  lemma {:induction false} CanonicalText(j: Json, le: Collation)
    ensures StableStringify(j, le) == Plain(Canon(j, le))
  {
    match j
    case Arr(items) => CanonicalItems(items, le);
    case Obj(entries) =>
      CanonicalEntries(entries, le);
      SortCommutes(CanonEntries(entries, le), le);
    case _ =>
  }

  lemma {:induction false} CanonicalItems(items: seq<Json>, le: Collation)
    ensures StringifyItems(items, le) == PlainItems(CanonItems(items, le))
  {
    if items != [] {
      CanonicalText(items[0], le);
      CanonicalItems(items[1..], le);
    }
  }

  lemma {:induction false} CanonicalEntries(entries: seq<Entry>, le: Collation)
    ensures StringifyEntries(entries, le) == PlainPairs(CanonEntries(entries, le))
  {
    if entries != [] {
      CanonicalText(entries[0].value, le);
      CanonicalEntries(entries[1..], le);
    }
  }

  // ---------- Reading the text back ----------

  // What may follow a value inside a text: nothing, or a separator.
  predicate Delimited(x: string) {
    x == "" || x[0] in ",]}"
  }

  // Equal texts that start with equally long pieces agree on the piece and on the rest.
  lemma Cut(p: string, q: string, x: string, y: string)
    requires p + x == q + y && |p| == |q|
    ensures p == q && x == y
  {
    assert p == (p + x)[..|p|] && q == (q + y)[..|p|];
    assert x == (p + x)[|p|..] && y == (q + y)[|p|..];
  }

  lemma Bracketed(open: string, inner: string, close: string, x: string)
    ensures open + inner + close + x == open + (inner + (close + x))
  {
  }

  lemma HexUnique(a: int, b: int)
    requires 0 <= a < 16 && 0 <= b < 16 && HEX[a] == HEX[b]
    ensures a == b
  {
  }

  lemma EscapeCharLength(c: char, x: string)
    ensures var s := EscapeChar(c) + x;
            |EscapeChar(c)| == if s[0] != '\\' then 1 else if s[1] == 'u' then 6 else 2
    ensures EscapeChar(c)[0] != '"'
  {
  }

  lemma EscapeCharInjective(c: char, d: char)
    requires EscapeChar(c) == EscapeChar(d)
    ensures c == d
  {
    if |EscapeChar(c)| == 6 {
      assert HEX[c as int / 16] == EscapeChar(c)[4] == EscapeChar(d)[4] == HEX[d as int / 16];
      assert HEX[c as int % 16] == EscapeChar(c)[5] == EscapeChar(d)[5] == HEX[d as int % 16];
      HexUnique(c as int / 16, d as int / 16);
      HexUnique(c as int % 16, d as int % 16);
    }
  }

  lemma EscapeStep(a: string, x: string)
    requires a != ""
    ensures Escape(a) + ("\"" + x) == EscapeChar(a[0]) + (Escape(a[1..]) + ("\"" + x))
    ensures (Escape(a) + ("\"" + x))[0] != '"'
  {
    EscapeCharLength(a[0], Escape(a[1..]) + ("\"" + x));
  }

  // A quoted string ends at its first bare quote.
  lemma {:induction false} EscapeUnique(a: string, b: string, x: string, y: string)
    requires Escape(a) + ("\"" + x) == Escape(b) + ("\"" + y)
    ensures a == b && x == y
  {
    assert a == "" <==> b == "" by {
      if a != "" {
        EscapeStep(a, x);
      }
      if b != "" {
        EscapeStep(b, y);
      }
    }
    if a == "" {
      Cut(Escape(a), Escape(b), "\"" + x, "\"" + y);
      Cut("\"", "\"", x, y);
    } else {
      var restA, restB := Escape(a[1..]) + ("\"" + x), Escape(b[1..]) + ("\"" + y);
      EscapeStep(a, x);
      EscapeStep(b, y);
      EscapeCharLength(a[0], restA);
      EscapeCharLength(b[0], restB);
      Cut(EscapeChar(a[0]), EscapeChar(b[0]), restA, restB);
      EscapeCharInjective(a[0], b[0]);
      EscapeUnique(a[1..], b[1..], x, y);
      assert a == [a[0]] + a[1..] && b == [b[0]] + b[1..];
    }
  }

  lemma QuoteUnique(a: string, b: string, x: string, y: string)
    requires Quote(a) + x == Quote(b) + y
    ensures a == b && x == y
  {
    Bracketed("\"", Escape(a), "\"", x);
    Bracketed("\"", Escape(b), "\"", y);
    Cut("\"", "\"", Escape(a) + ("\"" + x), Escape(b) + ("\"" + y));
    EscapeUnique(a, b, x, y);
  }

  predicate AllNumberChars(s: string) {
    forall i :: 0 <= i < |s| ==> NumberChar(s[i])
  }

  lemma {:induction false} LexemeUnique(a: string, b: string, x: string, y: string)
    requires AllNumberChars(a) && AllNumberChars(b)
    requires Delimited(x) && Delimited(y) && a + x == b + y
    ensures a == b && x == y
  {
    assert a == "" <==> b == "" by {
      if a != "" {
        assert (a + x)[0] == a[0];
      }
      if b != "" {
        assert (b + y)[0] == b[0];
      }
    }
    if a == "" {
      Cut(a, b, x, y);
    } else {
      assert a + x == [a[0]] + (a[1..] + x) && b + y == [b[0]] + (b[1..] + y);
      Cut([a[0]], [b[0]], a[1..] + x, b[1..] + y);
      LexemeUnique(a[1..], b[1..], x, y);
      assert a == [a[0]] + a[1..] && b == [b[0]] + b[1..];
    }
  }

  // The numbers of a value are numbers.
  ghost predicate ProperNumbers(j: Json) {
    match j
    case Num(lexeme) => Lexeme(lexeme)
    case Arr(items) => forall i :: 0 <= i < |items| ==> ProperNumbers(items[i])
    case Obj(entries) => forall i :: 0 <= i < |entries| ==> ProperNumbers(entries[i].value)
    case _ => true
  }

  // The first character tells what kind of value a text starts with.
  function Kind(j: Json): nat {
    match j
    case Null => 0
    case Bool(b) => if b then 1 else 2
    case Num(_) => 3
    case Str(_) => 4
    case Arr(_) => 5
    case Obj(_) => 6
  }

  function KindOfChar(c: char): nat {
    if c == 'n' then 0 else if c == 't' then 1 else if c == 'f' then 2
    else if '0' <= c <= '9' || c == '-' then 3
    else if c == '"' then 4 else if c == '[' then 5 else if c == '{' then 6 else 7
  }

  lemma FirstChar(j: Json, x: string)
    requires ProperNumbers(j)
    ensures Plain(j) != "" && KindOfChar((Plain(j) + x)[0]) == Kind(j)
  {
  }

  lemma {:induction false} PlainUnique(a: Json, b: Json, x: string, y: string)
    requires ProperNumbers(a) && ProperNumbers(b) && Delimited(x) && Delimited(y)
    requires Plain(a) + x == Plain(b) + y
    ensures a == b && x == y
    decreases a, 1
  {
    FirstChar(a, x);
    FirstChar(b, y);
    match a
    case Null => Cut("null", "null", x, y);
    case Bool(v) => Cut(Plain(a), Plain(b), x, y);
    case Num(lexeme) => LexemeUnique(lexeme, b.lexeme, x, y);
    case Str(text) => QuoteUnique(text, b.text, x, y);
    case Arr(items) => ArrayUnique(items, b.items, x, y);
    case Obj(entries) => ObjectUnique(entries, b.entries, x, y);
  }

  lemma {:induction false} ArrayUnique(a: seq<Json>, b: seq<Json>, x: string, y: string)
    requires forall i :: 0 <= i < |a| ==> ProperNumbers(a[i])
    requires forall i :: 0 <= i < |b| ==> ProperNumbers(b[i])
    requires "[" + PlainItems(a) + "]" + x == "[" + PlainItems(b) + "]" + y
    ensures a == b && x == y
    decreases a, 1
  {
    var u, v := PlainItems(a) + ("]" + x), PlainItems(b) + ("]" + y);
    Bracketed("[", PlainItems(a), "]", x);
    Bracketed("[", PlainItems(b), "]", y);
    Cut("[", "[", u, v);
    ItemsUnique(a, b, "]" + x, "]" + y);
    Cut("]", "]", x, y);
  }

  lemma {:induction false} ObjectUnique(a: seq<Entry>, b: seq<Entry>, x: string, y: string)
    requires forall i :: 0 <= i < |a| ==> ProperNumbers(a[i].value)
    requires forall i :: 0 <= i < |b| ==> ProperNumbers(b[i].value)
    requires "{" + JoinPairs(PlainPairs(a)) + "}" + x == "{" + JoinPairs(PlainPairs(b)) + "}" + y
    ensures a == b && x == y
    decreases a, 1
  {
    var u, v := JoinPairs(PlainPairs(a)) + ("}" + x), JoinPairs(PlainPairs(b)) + ("}" + y);
    Bracketed("{", JoinPairs(PlainPairs(a)), "}", x);
    Bracketed("{", JoinPairs(PlainPairs(b)), "}", y);
    Cut("{", "{", u, v);
    EntriesUnique(a, b, "}" + x, "}" + y);
    Cut("}", "}", x, y);
  }

  // What follows the first item of a list.
  function ItemsTail(a: seq<Json>, x: string): string
    requires a != []
  {
    if |a| == 1 then x else "," + (PlainItems(a[1..]) + x)
  }

  lemma ItemsStep(a: seq<Json>, x: string)
    requires a != [] && ProperNumbers(a[0])
    ensures PlainItems(a) + x == Plain(a[0]) + ItemsTail(a, x)
    ensures KindOfChar((PlainItems(a) + x)[0]) < 7
  {
    FirstChar(a[0], ItemsTail(a, x));
  }

  lemma {:induction false} ItemsUnique(a: seq<Json>, b: seq<Json>, x: string, y: string)
    requires forall i :: 0 <= i < |a| ==> ProperNumbers(a[i])
    requires forall i :: 0 <= i < |b| ==> ProperNumbers(b[i])
    requires x != "" && x[0] == ']' && y != "" && y[0] == ']'
    requires PlainItems(a) + x == PlainItems(b) + y
    ensures a == b && x == y
    decreases a, 0
  {
    assert a == [] <==> b == [] by {
      if a != [] {
        ItemsStep(a, x);
      }
      if b != [] {
        ItemsStep(b, y);
      }
    }
    if a == [] {
      Cut(PlainItems(a), PlainItems(b), x, y);
    } else {
      ItemsStep(a, x);
      ItemsStep(b, y);
      PlainUnique(a[0], b[0], ItemsTail(a, x), ItemsTail(b, y));
      if |a| > 1 {
        Cut(",", ",", PlainItems(a[1..]) + x, PlainItems(b[1..]) + y);
        ItemsUnique(a[1..], b[1..], x, y);
      }
      SameList(a, b);
    }
  }

  function EntriesTail(a: seq<Entry>, x: string): string
    requires a != []
  {
    if |a| == 1 then x else "," + (JoinPairs(PlainPairs(a[1..])) + x)
  }

  lemma JoinStep(p: Pair, rest: seq<Pair>, x: string)
    ensures JoinPairs([p] + rest) + x
            == Quote(p.key) + (":" + (p.text + if rest == [] then x else "," + (JoinPairs(rest) + x)))
  {
    var ps := [p] + rest;
    assert ps[1..] == rest;
    if rest == [] {
      assert JoinPairs(ps) == Quote(p.key) + ":" + p.text + "";
      Regroup(Quote(p.key), ":", p.text, "", x);
    } else {
      assert JoinPairs(ps) == Quote(p.key) + ":" + p.text + ("," + JoinPairs(rest));
      Regroup(Quote(p.key), ":", p.text, "," + JoinPairs(rest), x);
      assert ("," + JoinPairs(rest)) + x == "," + (JoinPairs(rest) + x);
    }
  }

  lemma Regroup(a: string, b: string, c: string, d: string, e: string)
    ensures a + b + c + d + e == a + (b + (c + (d + e)))
    ensures d == "" ==> d + e == e
  {
  }

  lemma EntriesStep(a: seq<Entry>, x: string)
    requires a != []
    ensures JoinPairs(PlainPairs(a)) + x
            == Quote(a[0].key) + (":" + (Plain(a[0].value) + EntriesTail(a, x)))
    ensures (JoinPairs(PlainPairs(a)) + x)[0] == '"'
  {
    JoinStep(Pair(a[0].key, Plain(a[0].value)), PlainPairs(a[1..]), x);
    assert PlainPairs(a[1..]) == [] <==> |a| == 1;
  }

  lemma SameList<T>(a: seq<T>, b: seq<T>)
    requires a != [] && b != [] && a[0] == b[0] && a[1..] == b[1..]
    ensures a == b
  {
    assert a == [a[0]] + a[1..] && b == [b[0]] + b[1..];
  }

  lemma {:induction false} EntriesUnique(a: seq<Entry>, b: seq<Entry>, x: string, y: string)
    requires forall i :: 0 <= i < |a| ==> ProperNumbers(a[i].value)
    requires forall i :: 0 <= i < |b| ==> ProperNumbers(b[i].value)
    requires x != "" && x[0] == '}' && y != "" && y[0] == '}'
    requires JoinPairs(PlainPairs(a)) + x == JoinPairs(PlainPairs(b)) + y
    ensures a == b && x == y
    decreases a, 0
  {
    assert a == [] <==> b == [] by {
      if a != [] {
        EntriesStep(a, x);
      }
      if b != [] {
        EntriesStep(b, y);
      }
    }
    if a == [] {
      Cut("", "", x, y);
    } else {
      var tailA, tailB := EntriesTail(a, x), EntriesTail(b, y);
      assert a[0] == b[0] && tailA == tailB by {
        var u, v := Plain(a[0].value) + tailA, Plain(b[0].value) + tailB;
        EntriesStep(a, x);
        EntriesStep(b, y);
        QuoteUnique(a[0].key, b[0].key, ":" + u, ":" + v);
        Cut(":", ":", u, v);
        PlainUnique(a[0].value, b[0].value, tailA, tailB);
      }
      if |a| > 1 {
        Cut(",", ",", JoinPairs(PlainPairs(a[1..])) + x, JoinPairs(PlainPairs(b[1..])) + y);
        EntriesUnique(a[1..], b[1..], x, y);
      }
      SameList(a, b);
    }
  }

  // ---------- Sorting ----------

  lemma {:induction false} InsertMembers(e: Entry, es: seq<Entry>, le: Collation)
    ensures forall x :: x in InsertEntry(e, es, le) <==> x == e || x in es
  {
    if es != [] {
      InsertMembers(e, es[1..], le);
      assert es == [es[0]] + es[1..];
    }
  }

  lemma {:induction false} SortMembers(es: seq<Entry>, le: Collation)
    ensures forall x :: x in SortEntries(es, le) <==> x in es
  {
    if es != [] {
      SortMembers(es[1..], le);
      InsertMembers(es[0], SortEntries(es[1..], le), le);
      assert es == [es[0]] + es[1..];
    }
  }

  predicate KeyBefore(es: seq<Entry>, k: string, l: string) {
    exists i, j :: 0 <= i < j < |es| && es[i].key == k && es[j].key == l
  }

  // `k` comes before `l` in the sorted entries: by the collation, or as it was written when
  // the collation ties the two.
  predicate Precedes(k: string, l: string, es: seq<Entry>, le: Collation) {
    le(k, l) && (le(l, k) ==> KeyBefore(es, k, l))
  }

  ghost predicate Sorted(s: seq<Entry>, es: seq<Entry>, le: Collation) {
    forall i, j :: 0 <= i < j < |s| ==> Precedes(s[i].key, s[j].key, es, le)
  }

  lemma {:induction false} InsertSorted(e: Entry, s: seq<Entry>, es: seq<Entry>, le: Collation)
    requires Preorder(le) && Sorted(s, es, le)
    requires forall x :: x in s ==> KeyBefore(es, e.key, x.key)
    ensures Sorted(InsertEntry(e, s, le), es, le)
  {
    if s != [] && !le(e.key, s[0].key) {
      var rest := InsertEntry(e, s[1..], le);
      InsertSorted(e, s[1..], es, le);
      InsertMembers(e, s[1..], le);
      forall j | 0 <= j < |rest| ensures Precedes(s[0].key, rest[j].key, es, le) {
        assert rest[j] in rest;
        if rest[j] != e {
          var i :| 0 <= i < |s[1..]| && s[1..][i] == rest[j];
          assert s[i + 1] == rest[j];
        }
      }
    } else {
      forall j | 0 <= j < |s| ensures Precedes(e.key, s[j].key, es, le) {
        assert s[j] in s;
        assert j > 0 ==> le(s[0].key, s[j].key);
      }
    }
  }

  lemma LaterEntries(es: seq<Entry>, k: string, l: string)
    requires es != [] && KeyBefore(es[1..], k, l)
    ensures KeyBefore(es, k, l)
  {
    var i, j :| 0 <= i < j < |es[1..]| && es[1..][i].key == k && es[1..][j].key == l;
    assert es[i + 1].key == k && es[j + 1].key == l;
  }

  lemma {:induction false} SortSorted(es: seq<Entry>, le: Collation)
    requires Preorder(le)
    ensures Sorted(SortEntries(es, le), es, le)
  {
    if es != [] {
      var s := SortEntries(es[1..], le);
      SortSorted(es[1..], le);
      SortMembers(es[1..], le);
      forall i, j | 0 <= i < j < |s| ensures Precedes(s[i].key, s[j].key, es, le) {
        if le(s[j].key, s[i].key) {
          LaterEntries(es, s[i].key, s[j].key);
        }
      }
      forall x | x in s ensures KeyBefore(es, es[0].key, x.key) {
        var i :| 0 <= i < |es[1..]| && es[1..][i] == x;
        assert es[i + 1] == x;
      }
      InsertSorted(es[0], s, es, le);
    }
  }

  lemma OneOrder(es: seq<Entry>, k: string, l: string, le: Collation)
    requires DistinctKeys(es)
    ensures !(Precedes(k, l, es, le) && Precedes(l, k, es, le))
  {
  }

  lemma TailMembers(a: seq<Entry>, b: seq<Entry>, es: seq<Entry>, le: Collation)
    requires DistinctKeys(es) && Sorted(a, es, le) && a != [] && b != [] && a[0] == b[0]
    requires forall x :: x in a ==> x in b
    ensures forall x :: x in a[1..] ==> x in b[1..]
  {
    forall x | x in a[1..]
      ensures x in b[1..]
    {
      var i :| 0 <= i < |a[1..]| && a[1..][i] == x;
      assert a[i + 1] == x && Precedes(a[0].key, a[i + 1].key, es, le);
      OneOrder(es, a[0].key, x.key, le);
      assert x in a && x != b[0];
      assert b == [b[0]] + b[1..];
    }
  }

  // Two lists that are sorted in the same way and have the same elements are the same list.
  lemma {:induction false} SortedUnique(a: seq<Entry>, b: seq<Entry>, es: seq<Entry>, le: Collation)
    requires DistinctKeys(es) && Sorted(a, es, le) && Sorted(b, es, le)
    requires forall x :: x in a <==> x in b
    ensures a == b
  {
    assert a == [] <==> b == [] by {
      if a != [] {
        assert a[0] in a;
      }
      if b != [] {
        assert b[0] in b;
      }
    }
    if a != [] {
      SameFirst(a, b, es, le);
      TailMembers(a, b, es, le);
      TailMembers(b, a, es, le);
      SortedUnique(a[1..], b[1..], es, le);
    }
  }

  lemma SameFirst(a: seq<Entry>, b: seq<Entry>, es: seq<Entry>, le: Collation)
    requires DistinctKeys(es) && Sorted(a, es, le) && Sorted(b, es, le) && a != [] && b != []
    requires forall x :: x in a <==> x in b
    ensures a[0] == b[0]
  {
    assert a[0] in b && b[0] in a;
    var i :| 0 <= i < |b| && b[i] == a[0];
    var j :| 0 <= j < |a| && a[j] == b[0];
    OneOrder(es, a[0].key, b[0].key, le);
  }

  // ---------- The canonical form means the same ----------

  lemma {:induction false} EntriesAt(es: seq<Entry>)
    requires DistinctKeys(es)
    ensures forall i :: 0 <= i < |es| ==>
              es[i].key in DenoteEntries(es) && DenoteEntries(es)[es[i].key] == Denote(es[i].value)
    ensures forall k :: k in DenoteEntries(es) ==> exists i :: 0 <= i < |es| && es[i].key == k
  {
    if es != [] {
      EntriesAt(es[1..]);
      assert es == [es[0]] + es[1..];
      forall i | 0 <= i < |es|
        ensures es[i].key in DenoteEntries(es) && DenoteEntries(es)[es[i].key] == Denote(es[i].value)
      {
        if i > 0 {
          assert es[i] == es[1..][i - 1];
        }
      }
      forall k | k in DenoteEntries(es)
        ensures exists i :: 0 <= i < |es| && es[i].key == k
      {
        if k == es[0].key {
          assert es[0].key == k;
        } else {
          var i :| 0 <= i < |es[1..]| && es[1..][i].key == k;
          assert es[i + 1].key == k;
        }
      }
    }
  }

  lemma {:induction false} CanonEntriesAt(es: seq<Entry>, le: Collation)
    ensures forall i :: 0 <= i < |es| ==>
              CanonEntries(es, le)[i] == Entry(es[i].key, Canon(es[i].value, le))
  {
    if es != [] {
      CanonEntriesAt(es[1..], le);
    }
  }

  lemma {:induction false} CanonItemsAt(items: seq<Json>, le: Collation)
    ensures forall i :: 0 <= i < |items| ==> CanonItems(items, le)[i] == Canon(items[i], le)
  {
    if items != [] {
      CanonItemsAt(items[1..], le);
    }
  }

  lemma {:induction false} DenoteItemsAt(items: seq<Json>)
    ensures forall i :: 0 <= i < |items| ==> DenoteItems(items)[i] == Denote(items[i])
  {
    if items != [] {
      DenoteItemsAt(items[1..]);
    }
  }

  lemma {:induction false} InsertDenotes(e: Entry, es: seq<Entry>, le: Collation)
    requires forall x :: x in es ==> x.key != e.key
    ensures DenoteEntries(InsertEntry(e, es, le)) == DenoteEntries(es)[e.key := Denote(e.value)]
  {
    if es == [] || le(e.key, es[0].key) {
      assert ([e] + es)[1..] == es;
    } else {
      var rest := InsertEntry(e, es[1..], le);
      InsertDenotes(e, es[1..], le);
      assert ([es[0]] + rest)[1..] == rest;
      assert es[0] in es;
    }
  }

  lemma {:induction false} SortDenotes(es: seq<Entry>, le: Collation)
    requires DistinctKeys(es)
    ensures DenoteEntries(SortEntries(es, le)) == DenoteEntries(es)
  {
    if es != [] {
      SortDenotes(es[1..], le);
      SortMembers(es[1..], le);
      forall x | x in SortEntries(es[1..], le)
        ensures x.key != es[0].key
      {
        var i :| 0 <= i < |es[1..]| && es[1..][i] == x;
        assert es[i + 1] == x;
      }
      InsertDenotes(es[0], SortEntries(es[1..], le), le);
    }
  }

  lemma {:induction false} CanonHasProperNumbers(j: Json, le: Collation)
    requires ProperNumbers(j)
    ensures ProperNumbers(Canon(j, le))
  {
    match j
    case Arr(items) =>
      CanonItemsAt(items, le);
      forall i | 0 <= i < |items| ensures ProperNumbers(CanonItems(items, le)[i]) {
        CanonHasProperNumbers(items[i], le);
      }
    case Obj(entries) =>
      var ces := CanonEntries(entries, le);
      CanonEntriesAt(entries, le);
      forall i | 0 <= i < |entries| ensures ProperNumbers(ces[i].value) {
        CanonHasProperNumbers(entries[i].value, le);
      }
      SortMembers(ces, le);
      var sorted := SortEntries(ces, le);
      forall i | 0 <= i < |sorted| ensures ProperNumbers(sorted[i].value) {
        assert sorted[i] in sorted;
      }
    case _ =>
  }

  lemma {:induction false} ActualHasProperNumbers(j: Json)
    requires Actual(j)
    ensures ProperNumbers(j)
  {
    match j
    case Arr(items) =>
      forall i | 0 <= i < |items| ensures ProperNumbers(items[i]) {
        ActualHasProperNumbers(items[i]);
      }
    case Obj(entries) =>
      forall i | 0 <= i < |entries| ensures ProperNumbers(entries[i].value) {
        ActualHasProperNumbers(entries[i].value);
      }
    case _ =>
  }

  lemma {:induction false} CanonDenotes(j: Json, le: Collation)
    requires Actual(j)
    ensures Denote(Canon(j, le)) == Denote(j)
    decreases j, 1
  {
    match j
    case Arr(items) => CanonItemsDenote(items, le);
    case Obj(entries) =>
      CanonEntriesDenote(entries, le);
      CanonEntriesAt(entries, le);
      SortDenotes(CanonEntries(entries, le), le);
    case _ =>
  }

  lemma {:induction false} CanonItemsDenote(items: seq<Json>, le: Collation)
    requires forall i :: 0 <= i < |items| ==> Actual(items[i])
    ensures DenoteItems(CanonItems(items, le)) == DenoteItems(items)
    decreases items, 0
  {
    if items != [] {
      CanonDenotes(items[0], le);
      CanonItemsDenote(items[1..], le);
      assert CanonItems(items, le)[1..] == CanonItems(items[1..], le);
    }
  }

  lemma {:induction false} CanonEntriesDenote(es: seq<Entry>, le: Collation)
    requires forall i :: 0 <= i < |es| ==> Actual(es[i].value)
    ensures DenoteEntries(CanonEntries(es, le)) == DenoteEntries(es)
    decreases es, 0
  {
    if es != [] {
      CanonDenotes(es[0].value, le);
      CanonEntriesDenote(es[1..], le);
      assert CanonEntries(es, le)[1..] == CanonEntries(es[1..], le);
    }
  }

  // ---------- The text separates values ----------

  // The canonical text determines the canonical form, whatever the collation.
  lemma SameTextIffSameCanon(a: Json, b: Json, le: Collation)
    requires ProperNumbers(a) && ProperNumbers(b)
    ensures StableStringify(a, le) == StableStringify(b, le) <==> Canon(a, le) == Canon(b, le)
  {
    CanonicalText(a, le);
    CanonicalText(b, le);
    CanonHasProperNumbers(a, le);
    CanonHasProperNumbers(b, le);
    if StableStringify(a, le) == StableStringify(b, le) {
      PlainUnique(Canon(a, le), Canon(b, le), "", "");
    }
  }

  // Different values have different canonical texts, whatever the collation.
  lemma CanonicalTextSeparatesValues(a: Json, b: Json, le: Collation)
    requires Actual(a) && Actual(b) && StableStringify(a, le) == StableStringify(b, le)
    ensures Denote(a) == Denote(b)
  {
    ActualHasProperNumbers(a);
    ActualHasProperNumbers(b);
    SameTextIffSameCanon(a, b, le);
    CanonDenotes(a, le);
    CanonDenotes(b, le);
  }

  // ---------- When the order of keys is ignored ----------

  // Keys that the collation ties were written in the same order.
  ghost predicate SameTieOrder(a: seq<Entry>, b: seq<Entry>, le: Collation) {
    forall k, l :: k != l && Same(k, l, le) ==> (KeyBefore(a, k, l) <==> KeyBefore(b, k, l))
  }

  // So in every object of two values, at the same place.
  ghost predicate SameTies(a: Json, b: Json, le: Collation) {
    match a
    case Arr(items) =>
      b.Arr? && |b.items| == |items| && forall i :: 0 <= i < |items| ==> SameTies(items[i], b.items[i], le)
    case Obj(entries) =>
      b.Obj? && SameTieOrder(entries, b.entries, le)
      && forall i, j :: 0 <= i < |entries| && 0 <= j < |b.entries| && entries[i].key == b.entries[j].key ==>
           SameTies(entries[i].value, b.entries[j].value, le)
    case _ => true
  }

  lemma CanonKeys(es: seq<Entry>, le: Collation)
    requires DistinctKeys(es)
    ensures DistinctKeys(CanonEntries(es, le))
    ensures forall k, l :: KeyBefore(CanonEntries(es, le), k, l) <==> KeyBefore(es, k, l)
  {
    CanonEntriesAt(es, le);
    var ces := CanonEntries(es, le);
    forall k, l ensures KeyBefore(ces, k, l) <==> KeyBefore(es, k, l) {
      if KeyBefore(ces, k, l) {
        var i, j :| 0 <= i < j < |ces| && ces[i].key == k && ces[j].key == l;
        assert es[i].key == k && es[j].key == l;
      }
      if KeyBefore(es, k, l) {
        var i, j :| 0 <= i < j < |es| && es[i].key == k && es[j].key == l;
        assert ces[i].key == k && ces[j].key == l;
      }
    }
  }

  lemma {:induction false} SameCanonIf(a: Json, b: Json, le: Collation)
    requires Preorder(le) && Actual(a) && Actual(b) && Denote(a) == Denote(b) && SameTies(a, b, le)
    ensures Canon(a, le) == Canon(b, le)
    decreases a, 1
  {
    match a
    case Arr(items) =>
      CanonItemsAt(items, le);
      CanonItemsAt(b.items, le);
      DenoteItemsAt(items);
      DenoteItemsAt(b.items);
      forall i | 0 <= i < |items|
        ensures Canon(items[i], le) == Canon(b.items[i], le)
      {
        SameCanonIf(items[i], b.items[i], le);
      }
      assert CanonItems(items, le) == CanonItems(b.items, le);
    case Obj(entries) => SameSortedIf(entries, b.entries, le);
    case _ =>
  }

  lemma CanonMembers(a: seq<Entry>, b: seq<Entry>, ca: seq<Entry>, cb: seq<Entry>)
    requires DistinctKeys(a) && DistinctKeys(b) && |ca| == |a| && |cb| == |b|
    requires forall k :: k in DenoteEntries(a) ==> k in DenoteEntries(b)
    requires forall i, j :: 0 <= i < |a| && 0 <= j < |b| && a[i].key == b[j].key ==> ca[i] == cb[j]
    ensures forall x :: x in ca ==> x in cb
  {
    EntriesAt(a);
    EntriesAt(b);
    forall x | x in ca
      ensures x in cb
    {
      var i :| 0 <= i < |ca| && ca[i] == x;
      assert a[i].key in DenoteEntries(b);
      var j :| 0 <= j < |b| && b[j].key == a[i].key;
      assert cb[j] == x;
    }
  }

  lemma {:induction false} SameSortedIf(a: seq<Entry>, b: seq<Entry>, le: Collation)
    requires Preorder(le) && DistinctKeys(a) && DistinctKeys(b)
    requires forall i :: 0 <= i < |a| ==> Actual(a[i].value)
    requires forall i :: 0 <= i < |b| ==> Actual(b[i].value)
    requires DenoteEntries(a) == DenoteEntries(b) && SameTieOrder(a, b, le)
    requires forall i, j :: 0 <= i < |a| && 0 <= j < |b| && a[i].key == b[j].key ==> SameTies(a[i].value, b[j].value, le)
    ensures SortEntries(CanonEntries(a, le), le) == SortEntries(CanonEntries(b, le), le)
    decreases a, 0
  {
    var ca, cb := CanonEntries(a, le), CanonEntries(b, le);
    EntriesAt(a);
    EntriesAt(b);
    CanonEntriesAt(a, le);
    CanonEntriesAt(b, le);
    forall i, j | 0 <= i < |a| && 0 <= j < |b| && a[i].key == b[j].key
      ensures ca[i] == cb[j]
    {
      SameCanonIf(a[i].value, b[j].value, le);
    }
    CanonMembers(a, b, ca, cb);
    CanonMembers(b, a, cb, ca);
    CanonKeys(a, le);
    CanonKeys(b, le);
    SameSort(ca, cb, le);
  }

  lemma SameSort(a: seq<Entry>, b: seq<Entry>, le: Collation)
    requires Preorder(le) && DistinctKeys(a) && DistinctKeys(b) && SameTieOrder(a, b, le)
    requires forall x :: x in a <==> x in b
    ensures SortEntries(a, le) == SortEntries(b, le)
  {
    SortMembers(a, le);
    SortMembers(b, le);
    SortSorted(a, le);
    SortSorted(b, le);
    var s := SortEntries(b, le);
    forall i, j | 0 <= i < j < |s| ensures Precedes(s[i].key, s[j].key, a, le) {
      assert Precedes(s[i].key, s[j].key, b, le);
    }
    SortedUnique(SortEntries(a, le), s, a, le);
  }

  lemma SortKeepsTies(es: seq<Entry>, k: string, l: string, le: Collation)
    requires Preorder(le) && DistinctKeys(es) && k != l && Same(k, l, le)
    ensures KeyBefore(SortEntries(es, le), k, l) <==> KeyBefore(es, k, l)
  {
    var s := SortEntries(es, le);
    SortSorted(es, le);
    SortMembers(es, le);
    if KeyBefore(s, k, l) {
      var i, j :| 0 <= i < j < |s| && s[i].key == k && s[j].key == l;
      assert Precedes(s[i].key, s[j].key, es, le);
    }
    if KeyBefore(es, k, l) {
      var i, j :| 0 <= i < j < |es| && es[i].key == k && es[j].key == l;
      assert es[i] in s && es[j] in s;
      var p :| 0 <= p < |s| && s[p] == es[i];
      var q :| 0 <= q < |s| && s[q] == es[j];
      assert q < p ==> Precedes(s[q].key, s[p].key, es, le);
    }
  }

  lemma {:induction false} SameCanonOnlyIf(a: Json, b: Json, le: Collation)
    requires Preorder(le) && Actual(a) && Actual(b) && Canon(a, le) == Canon(b, le)
    ensures SameTies(a, b, le)
    decreases a, 1
  {
    match a
    case Arr(items) =>
      CanonItemsAt(items, le);
      CanonItemsAt(b.items, le);
      assert |items| == |CanonItems(items, le)| == |b.items|;
      forall i | 0 <= i < |items| ensures SameTies(items[i], b.items[i], le) {
        SameCanonOnlyIf(items[i], b.items[i], le);
      }
    case Obj(entries) => SameSortedOnlyIf(entries, b.entries, le);
    case _ =>
  }

  lemma {:induction false} SameSortedOnlyIf(a: seq<Entry>, b: seq<Entry>, le: Collation)
    requires Preorder(le) && DistinctKeys(a) && DistinctKeys(b)
    requires forall i :: 0 <= i < |a| ==> Actual(a[i].value)
    requires forall i :: 0 <= i < |b| ==> Actual(b[i].value)
    requires SortEntries(CanonEntries(a, le), le) == SortEntries(CanonEntries(b, le), le)
    ensures SameTieOrder(a, b, le)
    ensures forall i, j :: 0 <= i < |a| && 0 <= j < |b| && a[i].key == b[j].key ==> SameTies(a[i].value, b[j].value, le)
    decreases a, 0
  {
    var ca, cb := CanonEntries(a, le), CanonEntries(b, le);
    CanonKeys(a, le);
    CanonKeys(b, le);
    forall k, l | k != l && Same(k, l, le)
      ensures KeyBefore(a, k, l) <==> KeyBefore(b, k, l)
    {
      SortKeepsTies(ca, k, l, le);
      SortKeepsTies(cb, k, l, le);
    }
    CanonEntriesAt(a, le);
    CanonEntriesAt(b, le);
    SortMembers(ca, le);
    SortMembers(cb, le);
    forall i, j | 0 <= i < |a| && 0 <= j < |b| && a[i].key == b[j].key
      ensures SameTies(a[i].value, b[j].value, le)
    {
      assert cb[j] in ca;
      assert ca[i] == cb[j];
      SameCanonOnlyIf(a[i].value, b[j].value, le);
    }
  }

  // ---------- The theorem ----------

  // Two values have the same canonical text exactly if they mean the same and, wherever the
  // collation ties two keys of an object, those keys were written in the same order.
  lemma CanonicalTextIff(a: Json, b: Json, le: Collation)
    requires Preorder(le) && Actual(a) && Actual(b)
    ensures StableStringify(a, le) == StableStringify(b, le) <==> Denote(a) == Denote(b) && SameTies(a, b, le)
  {
    ActualHasProperNumbers(a);
    ActualHasProperNumbers(b);
    SameTextIffSameCanon(a, b, le);
    if StableStringify(a, le) == StableStringify(b, le) {
      CanonicalTextSeparatesValues(a, b, le);
      SameCanonOnlyIf(a, b, le);
    }
    if Denote(a) == Denote(b) && SameTies(a, b, le) {
      SameCanonIf(a, b, le);
    }
  }

  // No object, at any depth, has two keys that the collation ties.
  ghost predicate Untied(j: Json, le: Collation) {
    match j
    case Arr(items) => forall i :: 0 <= i < |items| ==> Untied(items[i], le)
    case Obj(entries) =>
      && (forall i, j :: 0 <= i < j < |entries| ==> !Same(entries[i].key, entries[j].key, le))
      && forall i :: 0 <= i < |entries| ==> Untied(entries[i].value, le)
    case _ => true
  }

  lemma {:induction false} UntiedHasSameTies(a: Json, b: Json, le: Collation)
    requires Actual(a) && Actual(b) && Denote(a) == Denote(b) && Untied(a, le) && Untied(b, le)
    ensures SameTies(a, b, le)
  {
    match a
    case Arr(items) =>
      DenoteItemsAt(items);
      DenoteItemsAt(b.items);
      assert |items| == |DenoteItems(items)| == |b.items|;
      forall i | 0 <= i < |items| ensures SameTies(items[i], b.items[i], le) {
        UntiedHasSameTies(items[i], b.items[i], le);
      }
    case Obj(entries) =>
      EntriesAt(entries);
      EntriesAt(b.entries);
      forall i, j | 0 <= i < |entries| && 0 <= j < |b.entries| && entries[i].key == b.entries[j].key
        ensures SameTies(entries[i].value, b.entries[j].value, le)
      {
        UntiedHasSameTies(entries[i].value, b.entries[j].value, le);
      }
    case _ =>
  }

  // Without ties the order of keys is ignored altogether.
  lemma OrderIsIgnoredWithoutTies(a: Json, b: Json, le: Collation)
    requires Preorder(le) && Actual(a) && Actual(b) && Untied(a, le) && Untied(b, le)
    ensures StableStringify(a, le) == StableStringify(b, le) <==> Denote(a) == Denote(b)
  {
    CanonicalTextIff(a, b, le);
    if Denote(a) == Denote(b) {
      UntiedHasSameTies(a, b, le);
    }
  }

  lemma {:induction false} SameTiesAsItself(j: Json, le: Collation)
    requires Actual(j)
    ensures SameTies(j, j, le)
  {
    match j
    case Arr(items) =>
      forall i | 0 <= i < |items| ensures SameTies(items[i], items[i], le) {
        SameTiesAsItself(items[i], le);
      }
    case Obj(entries) =>
      forall i, k | 0 <= i < |entries| && 0 <= k < |entries| && entries[i].key == entries[k].key
        ensures SameTies(entries[i].value, entries[k].value, le)
      {
        assert i == k;
        SameTiesAsItself(entries[i].value, le);
      }
    case _ =>
  }

  function Swapped(at: nat, i: int): int {
    if i == at then at + 1 else if i == at + 1 then at else i
  }

  predicate IsSwap(a: seq<Entry>, b: seq<Entry>, at: nat) {
    |a| == |b| && at + 1 < |a| && forall i :: 0 <= i < |a| ==> b[i] == a[Swapped(at, i)]
  }

  lemma SwapBack(a: seq<Entry>, b: seq<Entry>, at: nat)
    requires IsSwap(a, b, at)
    ensures IsSwap(b, a, at)
  {
    forall i | 0 <= i < |a| ensures a[i] == b[Swapped(at, i)] {
      assert Swapped(at, Swapped(at, i)) == i;
    }
  }

  lemma SwapIsActual(a: seq<Entry>, b: seq<Entry>, at: nat)
    requires IsSwap(a, b, at) && Actual(Obj(a))
    ensures Actual(Obj(b))
  {
    forall i, j | 0 <= i < j < |b| ensures b[i].key != b[j].key {
      assert b[i] == a[Swapped(at, i)] && b[j] == a[Swapped(at, j)];
    }
  }

  lemma FieldAt(es: seq<Entry>, i: nat)
    requires DistinctKeys(es) && i < |es|
    ensures es[i].key in DenoteEntries(es) && DenoteEntries(es)[es[i].key] == Denote(es[i].value)
  {
    EntriesAt(es);
  }

  lemma FieldFrom(es: seq<Entry>, k: string) returns (i: nat)
    requires DistinctKeys(es) && k in DenoteEntries(es)
    ensures i < |es| && es[i].key == k && DenoteEntries(es)[k] == Denote(es[i].value)
  {
    EntriesAt(es);
    i :| i < |es| && es[i].key == k;
  }

  lemma SwapKeepsFields(a: seq<Entry>, b: seq<Entry>, at: nat, k: string)
    requires IsSwap(a, b, at) && DistinctKeys(a) && DistinctKeys(b) && k in DenoteEntries(a)
    ensures k in DenoteEntries(b) && DenoteEntries(b)[k] == DenoteEntries(a)[k]
  {
    SwapBack(a, b, at);
    var i := FieldFrom(a, k);
    assert b[Swapped(at, i)] == a[i];
    FieldAt(b, Swapped(at, i));
  }

  lemma SwapMeansTheSame(a: seq<Entry>, b: seq<Entry>, at: nat)
    requires IsSwap(a, b, at) && DistinctKeys(a) && DistinctKeys(b)
    ensures DenoteEntries(a) == DenoteEntries(b)
  {
    SwapBack(a, b, at);
    var (da, db) := (DenoteEntries(a), DenoteEntries(b));
    forall k ensures k in da <==> k in db {
      if k in da {
        SwapKeepsFields(a, b, at, k);
      }
      if k in db {
        SwapKeepsFields(b, a, at, k);
      }
    }
    forall k | k in da ensures da[k] == db[k] {
      SwapKeepsFields(a, b, at, k);
    }
  }

  lemma SwapKeepsOthers(a: seq<Entry>, b: seq<Entry>, at: nat, k: string, l: string)
    requires IsSwap(a, b, at) && KeyBefore(a, k, l)
    requires !(k == a[at].key && l == a[at + 1].key)
    ensures KeyBefore(b, k, l)
  {
    SwapBack(a, b, at);
    var i, j :| 0 <= i < j < |a| && a[i].key == k && a[j].key == l;
    assert b[Swapped(at, i)] == a[i] && b[Swapped(at, j)] == a[j];
  }

  lemma SwapKeepsTiesIff(a: seq<Entry>, b: seq<Entry>, at: nat, le: Collation)
    requires IsSwap(a, b, at) && Actual(Obj(a)) && Actual(Obj(b))
    ensures SameTies(Obj(a), Obj(b), le) <==> !Same(a[at].key, a[at + 1].key, le)
  {
    var (x, y) := (a[at], a[at + 1]);
    SwapBack(a, b, at);
    assert b[at] == a[Swapped(at, at)] && b[at + 1] == a[Swapped(at, at + 1)];
    assert KeyBefore(a, x.key, y.key) && !KeyBefore(b, x.key, y.key);
    forall i, j | 0 <= i < |a| && 0 <= j < |b| && a[i].key == b[j].key
      ensures SameTies(a[i].value, b[j].value, le)
    {
      assert b[j] == a[Swapped(at, j)];
      assert i == Swapped(at, j);
      SameTiesAsItself(a[i].value, le);
    }
    if !Same(x.key, y.key, le) {
      forall k, l | k != l && Same(k, l, le)
        ensures KeyBefore(a, k, l) <==> KeyBefore(b, k, l)
      {
        if KeyBefore(a, k, l) {
          SwapKeepsOthers(a, b, at, k, l);
        }
        if KeyBefore(b, k, l) {
          SwapKeepsOthers(b, a, at, k, l);
        }
      }
    }
  }

  // Swapping two neighbours of an object, whatever comes before and after them and whatever
  // their values, leaves the text the same exactly if the collation tells their keys apart.
  lemma KeyOrderIgnoredIff(pre: seq<Entry>, x: Entry, y: Entry, post: seq<Entry>, le: Collation)
    requires Preorder(le) && Actual(Obj(pre + [x, y] + post))
    ensures StableStringify(Obj(pre + [x, y] + post), le) == StableStringify(Obj(pre + [y, x] + post), le)
            <==> !Same(x.key, y.key, le)
  {
    var (a, b) := (pre + [x, y] + post, pre + [y, x] + post);
    assert IsSwap(a, b, |pre|);
    SwapIsActual(a, b, |pre|);
    SwapMeansTheSame(a, b, |pre|);
    SwapKeepsTiesIff(a, b, |pre|, le);
    CanonicalTextIff(Obj(a), Obj(b), le);
  }
}
