/**
 The canonical text that template and rule-set digests are taken from. JSON objects keep
 their entries in insertion order; the canonical text sorts them by key.
 */
module CanonicalJson {

  // `lexeme` is the decimal text of a finite number.
  datatype Json =
    | Null
    | Bool(value: bool)
    | Num(lexeme: string)
    | Str(text: string)
    | Arr(items: seq<Json>)
    | Obj(entries: seq<Entry>)

  datatype Entry = Entry(key: string, value: Json)

  // What a JSON value means: an object is a map, whatever order its keys were written in.
  datatype Value =
    | VNull
    | VBool(value: bool)
    | VNum(lexeme: string)
    | VStr(text: string)
    | VArr(items: seq<Value>)
    | VObj(fields: map<string, Value>)

  // The key order of the sort: `a` does not come after `b`.
  type Collation = (string, string) -> bool

  // ---------- JSON.stringify on strings ----------

  const HEX := "0123456789abcdef"

  function EscapeChar(c: char): string {
    if c == '"' then "\\\""
    else if c == '\\' then "\\\\"
    else if c == '\n' then "\\n"
    else if c == '\r' then "\\r"
    else if c == '\t' then "\\t"
    else if c == 8 as char then "\\b"
    else if c == 12 as char then "\\f"
    else if c < ' ' then "\\u00" + [HEX[c as int / 16], HEX[c as int % 16]]
    else [c]
  }

  function Escape(s: string): string {
    if s == "" then "" else EscapeChar(s[0]) + Escape(s[1..])
  }

  function Quote(s: string): string {
    "\"" + Escape(s) + "\""
  }

  // ---------- stableStringify ----------

  datatype Pair = Pair(key: string, text: string)

  function InsertPair(p: Pair, ps: seq<Pair>, le: Collation): seq<Pair> {
    if ps == [] then [p]
    else if le(p.key, ps[0].key) then [p] + ps
    else [ps[0]] + InsertPair(p, ps[1..], le)
  }

  // A stable sort by key.
  function SortPairs(ps: seq<Pair>, le: Collation): seq<Pair> {
    if ps == [] then [] else InsertPair(ps[0], SortPairs(ps[1..], le), le)
  }

  function JoinPairs(ps: seq<Pair>): string {
    if ps == [] then ""
    else Quote(ps[0].key) + ":" + ps[0].text + if |ps| == 1 then "" else "," + JoinPairs(ps[1..])
  }

  function StableStringify(j: Json, le: Collation): string {
    match j
    case Null => "null"
    case Bool(b) => if b then "true" else "false"
    case Num(lexeme) => lexeme
    case Str(text) => Quote(text)
    case Arr(items) => "[" + StringifyItems(items, le) + "]"
    case Obj(entries) => "{" + JoinPairs(SortPairs(StringifyEntries(entries, le), le)) + "}"
  }

  function StringifyItems(items: seq<Json>, le: Collation): string {
    if items == [] then ""
    else StableStringify(items[0], le) + if |items| == 1 then "" else "," + StringifyItems(items[1..], le)
  }

  function StringifyEntries(entries: seq<Entry>, le: Collation): seq<Pair> {
    if entries == [] then []
    else
      [Pair(entries[0].key, StableStringify(entries[0].value, le))] + StringifyEntries(entries[1..], le)
  }

  // ---------- Meaning ----------

  function Denote(j: Json): Value {
    match j
    case Null => VNull
    case Bool(b) => VBool(b)
    case Num(lexeme) => VNum(lexeme)
    case Str(text) => VStr(text)
    case Arr(items) => VArr(DenoteItems(items))
    case Obj(entries) => VObj(DenoteEntries(entries))
  }

  function DenoteItems(items: seq<Json>): (vs: seq<Value>)
    ensures |vs| == |items|
  {
    if items == [] then [] else [Denote(items[0])] + DenoteItems(items[1..])
  }

  function DenoteEntries(entries: seq<Entry>): map<string, Value> {
    if entries == [] then map[]
    else DenoteEntries(entries[1..])[entries[0].key := Denote(entries[0].value)]
  }
}
