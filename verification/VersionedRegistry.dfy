/**
 The append-only tables of published templates and rule sets. A row is pinned by name,
 version and digest; the digest is the canonical text of the body, the hash on top of it
 being taken as injective.
 */
module VersionedRegistry {
  import opened Common
  import opened CanonicalJson
  import opened CanonicalJsonProofs

  datatype Row = Row(name: string, version: nat, digest: string, body: Json)

  type Table = seq<Row>

  function Digest(body: Json, le: Collation): string {
    StableStringify(body, le)
  }

  function FindDigest(t: Table, name: string, digest: string): Option<Row> {
    if t == [] then None
    else if t[0].name == name && t[0].digest == digest then Some(t[0])
    else FindDigest(t[1..], name, digest)
  }

  function FindVersion(t: Table, name: string, version: nat): Option<Row> {
    if t == [] then None
    else if t[0].name == name && t[0].version == version then Some(t[0])
    else FindVersion(t[1..], name, version)
  }

  // The highest version of a name; 0 when it was never published.
  function LatestVersion(t: Table, name: string): nat {
    if t == [] then 0
    else Max(if t[|t| - 1].name == name then t[|t| - 1].version else 0, LatestVersion(t[..|t| - 1], name))
  }

  // The row a publication answers, and the table it leaves.
  function Publish(t: Table, name: string, body: Json, le: Collation): (Table, Row) {
    var digest := Digest(body, le);
    match FindDigest(t, name, digest)
    case Some(row) => (t, row)
    case None =>
      var row := Row(name, LatestVersion(t, name) + 1, digest, body);
      (t + [row], row)
  }

  datatype Publication = Publication(name: string, body: Json)

  function PublishAll(t: Table, ps: seq<Publication>, le: Collation): Table {
    if ps == [] then t
    else Publish(PublishAll(t, ps[..|ps| - 1], le), ps[|ps| - 1].name, ps[|ps| - 1].body, le).0
  }

  // ---------- Invariants ----------

  predicate Stored(t: Table, name: string, version: int) {
    exists i :: 0 <= i < |t| && t[i].name == name && t[i].version == version
  }

  // The versions of a name are 1, 2, 3, … with no gap, their digests differ, and each
  // digest is the digest of its body.
  ghost predicate Numbered(t: Table) {
    && (forall i :: 0 <= i < |t| ==> 1 <= t[i].version <= LatestVersion(t, t[i].name))
    && (forall name, v :: 1 <= v <= LatestVersion(t, name) ==> Stored(t, name, v))
    && (forall i, j :: 0 <= i < j < |t| && t[i].name == t[j].name ==>
          t[i].version < t[j].version && t[i].digest != t[j].digest)
  }

  ghost predicate Digested(t: Table, le: Collation) {
    forall i :: 0 <= i < |t| ==> t[i].digest == Digest(t[i].body, le)
  }

  lemma {:induction false} FindDigestFinds(t: Table, name: string, digest: string)
    ensures match FindDigest(t, name, digest)
            case Some(row) => row in t && row.name == name && row.digest == digest
            case None => forall i :: 0 <= i < |t| ==> !(t[i].name == name && t[i].digest == digest)
  {
    if t != [] {
      FindDigestFinds(t[1..], name, digest);
      assert t == [t[0]] + t[1..];
    }
  }

  lemma {:induction false} FindVersionFinds(t: Table, name: string, version: nat)
    ensures match FindVersion(t, name, version)
            case Some(row) => row in t && row.name == name && row.version == version
            case None => forall i :: 0 <= i < |t| ==> !(t[i].name == name && t[i].version == version)
  {
    if t != [] {
      FindVersionFinds(t[1..], name, version);
      assert t == [t[0]] + t[1..];
    }
  }

  lemma LatestAfterAppend(t: Table, row: Row, name: string)
    ensures LatestVersion(t + [row], name)
            == Max(if row.name == name then row.version else 0, LatestVersion(t, name))
  {
  }

  lemma PublishKeeps(t: Table, name: string, body: Json, le: Collation)
    requires Numbered(t) && Digested(t, le)
    ensures var (n, row) := Publish(t, name, body, le);
            && Numbered(n) && Digested(n, le)
            && t <= n && row in n && row.name == name && row.digest == Digest(body, le)
  {
    var digest := Digest(body, le);
    var (n, row) := Publish(t, name, body, le);
    FindDigestFinds(t, name, digest);
    if FindDigest(t, name, digest).None? {
      forall m ensures LatestVersion(n, m) == if m == name then LatestVersion(t, m) + 1 else LatestVersion(t, m) {
        LatestAfterAppend(t, row, m);
      }
      forall m, v: int
        ensures 1 <= v <= LatestVersion(n, m) ==> Stored(n, m, v)
      {
        if 1 <= v <= LatestVersion(t, m) {
          assert Stored(t, m, v);
          var i :| 0 <= i < |t| && t[i].name == m && t[i].version == v;
          assert n[i].name == m;
        } else if m == name && v == LatestVersion(t, m) + 1 {
          assert n[|t|].name == m;
        }
      }
    }
  }

  // Over every history of publications: versions are exactly 1..n with distinct digests,
  // and everything stored before is still there, unchanged.
  lemma {:induction false} EveryHistory(t: Table, ps: seq<Publication>, le: Collation)
    requires Numbered(t) && Digested(t, le)
    ensures var n := PublishAll(t, ps, le);
            Numbered(n) && Digested(n, le) && t <= n
  {
    if ps != [] {
      var before := PublishAll(t, ps[..|ps| - 1], le);
      EveryHistory(t, ps[..|ps| - 1], le);
      PublishKeeps(before, ps[|ps| - 1].name, ps[|ps| - 1].body, le);
    }
  }

  // However many versions later, publishing answers the old row exactly for the bodies with
  // the digest of the first one.
  lemma RepublishByDigest(t: Table, ps: seq<Publication>, name: string, first: Json, again: Json, le: Collation)
    requires Numbered(t) && Digested(t, le)
    ensures var (n, row) := Publish(t, name, first, le);
            var later := PublishAll(n, ps, le);
            && (Digest(again, le) == Digest(first, le) ==> Publish(later, name, again, le) == (later, row))
            && (Digest(again, le) != Digest(first, le) ==> Publish(later, name, again, le).1 != row)
  {
    var (n, row) := Publish(t, name, first, le);
    var later := PublishAll(n, ps, le);
    PublishKeeps(t, name, first, le);
    EveryHistory(n, ps, le);
    FindDigestFinds(later, name, row.digest);
    assert row in later;
    PublishKeeps(later, name, again, le);
    if Digest(again, le) == Digest(first, le) {
      OneRowPerDigest(later, row, Publish(later, name, again, le).1);
    }
  }

  // Publishing the very same body again answers its old version and stores nothing.
  lemma RepublishSameBody(t: Table, ps: seq<Publication>, name: string, body: Json, le: Collation)
    requires Numbered(t) && Digested(t, le)
    ensures var (n, row) := Publish(t, name, body, le);
            var later := PublishAll(n, ps, le);
            Publish(later, name, body, le) == (later, row)
  {
    RepublishByDigest(t, ps, name, body, body, le);
  }

  // Which other bodies answer the old version: those that mean the same and were written
  // with the keys that the collation ties in the same order.
  lemma RepublishAnswersOldVersion(t: Table, ps: seq<Publication>, name: string, first: Json, again: Json, le: Collation)
    requires Numbered(t) && Digested(t, le)
    requires Preorder(le) && Actual(first) && Actual(again)
    ensures var (n, row) := Publish(t, name, first, le);
            var later := PublishAll(n, ps, le);
            && (Publish(later, name, again, le).1 == row <==> Denote(first) == Denote(again) && SameTies(first, again, le))
            && (Publish(later, name, again, le).1 == row ==> Publish(later, name, again, le).0 == later)
  {
    CanonicalTextIff(first, again, le);
    RepublishByDigest(t, ps, name, first, again, le);
  }

  lemma OneRowPerDigest(t: Table, a: Row, b: Row)
    requires Numbered(t) && a in t && b in t && a.name == b.name
    requires a.digest == b.digest || a.version == b.version
    ensures a == b
  {
  }

  // A body that means something new gets the next version, whatever the collation.
  lemma NewBodyGetsNextVersion(t: Table, name: string, body: Json, le: Collation)
    requires Numbered(t) && Digested(t, le) && Actual(body)
    requires forall i :: 0 <= i < |t| && t[i].name == name ==> Actual(t[i].body) && Denote(t[i].body) != Denote(body)
    ensures Publish(t, name, body, le).1.version == LatestVersion(t, name) + 1
  {
    FindDigestFinds(t, name, Digest(body, le));
    forall i | 0 <= i < |t| && t[i].name == name
      ensures t[i].digest != Digest(body, le)
    {
      if t[i].digest == Digest(body, le) {
        CanonicalTextSeparatesValues(t[i].body, body, le);
      }
    }
  }

  // ---------- Pinned references ----------

  predicate Resolvable(t: Table, name: string, version: nat, digest: string) {
    var row := FindVersion(t, name, version);
    row.Some? && row.value.digest == digest
  }

  // What a publication answered, or a lookup found, stays resolvable for ever, to the
  // very same row.
  lemma PinnedForEver(t: Table, row: Row, ps: seq<Publication>, le: Collation)
    requires Numbered(t) && Digested(t, le) && row in t
    ensures FindVersion(PublishAll(t, ps, le), row.name, row.version) == Some(row)
  {
    var later := PublishAll(t, ps, le);
    EveryHistory(t, ps, le);
    FindVersionFinds(later, row.name, row.version);
    assert row in later;
    OneRowPerDigest(later, row, FindVersion(later, row.name, row.version).value);
  }

  // ---------- The extension's table ----------

  class Registry {
    const collation: Collation
    var rows: Table
    // Everything ever published.
    ghost var history: seq<Publication>

    ghost predicate Valid()
      reads this
    {
      rows == PublishAll([], history, collation)
    }

    // So at all times: versions are 1..n with distinct digests, and digests are those of
    // their bodies.
    lemma Holds()
      requires Valid()
      ensures Numbered(rows) && Digested(rows, collation)
    {
      EveryHistory([], history, collation);
    }

    constructor (collation: Collation)
      ensures Valid() && history == [] && this.collation == collation
    {
      this.collation := collation;
      rows, history := [], [];
    }

    method FindByDigest(name: string, digest: string) returns (row: Option<Row>)
      ensures row == FindDigest(rows, name, digest)
    {
      for i := 0 to |rows|
        invariant FindDigest(rows[i..], name, digest) == FindDigest(rows, name, digest)
      {
        if rows[i].name == name && rows[i].digest == digest {
          return Some(rows[i]);
        }
        assert rows[i..][1..] == rows[i + 1..];
      }
      row := None;
    }

    method Latest(name: string) returns (version: nat)
      ensures version == LatestVersion(rows, name)
    {
      version := 0;
      for i := 0 to |rows|
        invariant version == LatestVersion(rows[..i], name)
      {
        LatestAfterAppend(rows[..i], rows[i], name);
        assert rows[..i + 1] == rows[..i] + [rows[i]];
        if rows[i].name == name && rows[i].version > version {
          version := rows[i].version;
        }
      }
      assert rows[..|rows|] == rows;
    }

    // `publishTemplate` and, with the scope inside the body, `publishRuleSet`.
    method PublishBody(name: string, body: Json) returns (row: Row)
      requires Valid()
      modifies this
      ensures Valid() && history == old(history) + [Publication(name, body)]
      ensures (rows, row) == Publish(old(rows), name, body, collation)
      ensures old(rows) <= rows && row in rows && row.name == name && row.digest == Digest(body, collation)
    {
      Holds();
      PublishKeeps(rows, name, body, collation);
      assert (history + [Publication(name, body)])[..|history|] == history;
      history := history + [Publication(name, body)];
      var digest := StableStringify(body, collation);
      var existing := FindByDigest(name, digest);
      if existing.Some? {
        return existing.value;
      }
      var latest := Latest(name);
      row := Row(name, latest + 1, digest, body);
      rows := rows + [row];
    }
  }
}
