/** Versions of a contract's interface: which one is current, and which one a caller gets. */
module AbiRegistry {
  import opened Common

  /** A version string with the numbers between its dots; a part that is no number counts as 0. */
  datatype Version = Version(text: string, parts: seq<int>)

  datatype Entry = Entry(version: Version, schema: string, isCurrent: bool)

  /** One registry; the entries are listed newest first. */
  datatype Registry = Registry(currentVersion: Option<string>, entries: seq<Entry>)

  function PartAt(parts: seq<int>, i: nat): int { if i < |parts| then parts[i] else 0 }

  /** The first difference from the i-th part on, with missing parts read as 0. */
  function Difference(l: seq<int>, r: seq<int>, i: nat): int
    decreases Max(|l|, |r|) - i
  {
    if i >= |l| && i >= |r| then 0
    else if PartAt(l, i) != PartAt(r, i) then PartAt(l, i) - PartAt(r, i)
    else Difference(l, r, i + 1)
  }

  function Compare(l: Version, r: Version): int { Difference(l.parts, r.parts, 0) }

  method CompareVersions(l: Version, r: Version) returns (diff: int)
    ensures diff == Compare(l, r)
  {
    var length := Max(|l.parts|, |r.parts|);
    var index := 0;
    while index < length
      invariant 0 <= index <= length
      invariant Compare(l, r) == Difference(l.parts, r.parts, index)
    {
      var d := PartAt(l.parts, index) - PartAt(r.parts, index);
      if d != 0 {
        return d;
      }
      index := index + 1;
    }
    return 0;
  }

  // ---------------------------------------------------------------------------------------------
  // The order of versions
  // ---------------------------------------------------------------------------------------------

  lemma {:induction false} DifferenceFlips(l: seq<int>, r: seq<int>, i: nat)
    ensures Difference(l, r, i) == -Difference(r, l, i)
    decreases Max(|l|, |r|) - i
  {
    if i < |l| || i < |r| {
      DifferenceFlips(l, r, i + 1);
    }
  }

  /** One step of the comparison, whether or not there are parts left. */
  lemma {:induction false} DifferenceStep(l: seq<int>, r: seq<int>, i: nat)
    ensures Difference(l, r, i) ==
      if PartAt(l, i) != PartAt(r, i) then PartAt(l, i) - PartAt(r, i) else Difference(l, r, i + 1)
  {
  }

  lemma {:induction false} DifferenceTransitive(a: seq<int>, b: seq<int>, c: seq<int>, i: nat)
    requires Difference(a, b, i) <= 0 && Difference(b, c, i) <= 0
    ensures Difference(a, c, i) <= 0
    ensures Difference(a, c, i) == 0 ==> Difference(a, b, i) == 0 == Difference(b, c, i)
    decreases Max(|a|, Max(|b|, |c|)) - i
  {
    if i >= |a| && i >= |b| && i >= |c| {
    } else {
      DifferenceStep(a, b, i);
      DifferenceStep(b, c, i);
      DifferenceStep(a, c, i);
      if PartAt(a, i) == PartAt(b, i) == PartAt(c, i) {
        DifferenceTransitive(a, b, c, i + 1);
      }
    }
  }

  /** Comparison is a total preorder: exactly one of less, equal, greater, and transitive. */
  lemma {:induction false} CompareIsPreorder(a: Version, b: Version, c: Version)
    ensures Compare(a, a) == 0
    ensures Compare(a, b) == -Compare(b, a)
    ensures Compare(a, b) <= 0 && Compare(b, c) <= 0 ==> Compare(a, c) <= 0
    ensures Compare(a, b) <= 0 && Compare(b, c) < 0 ==> Compare(a, c) < 0
  {
    DifferenceFlips(a.parts, b.parts, 0);
    DifferenceFlips(a.parts, a.parts, 0);
    if Compare(a, b) <= 0 && Compare(b, c) <= 0 {
      DifferenceTransitive(a.parts, b.parts, c.parts, 0);
    }
  }

  /** Two versions compare equal exactly when they differ by trailing zeros at most. */
  lemma {:induction false} EqualIffPadded(a: Version, b: Version)
    ensures Compare(a, b) == 0 <==> forall i: nat :: PartAt(a.parts, i) == PartAt(b.parts, i)
  {
    DifferenceZeroIff(a.parts, b.parts, 0);
  }

  lemma {:induction false} DifferenceZeroIff(l: seq<int>, r: seq<int>, i: nat)
    ensures Difference(l, r, i) == 0 <==> forall k: nat | i <= k :: PartAt(l, k) == PartAt(r, k)
    decreases Max(|l|, |r|) - i
  {
    if i < |l| || i < |r| {
      DifferenceZeroIff(l, r, i + 1);
    }
  }

  /** The parts agree from the i-th to the k-th, where the left one is larger. */
  predicate LargerAt(l: seq<int>, r: seq<int>, i: nat, k: nat) {
    i <= k && PartAt(l, k) > PartAt(r, k) && forall j: nat | i <= j < k :: PartAt(l, j) == PartAt(r, j)
  }

  lemma {:induction false} DifferencePositiveIff(l: seq<int>, r: seq<int>, i: nat)
    ensures Difference(l, r, i) > 0 <==> exists k: nat :: LargerAt(l, r, i, k)
    decreases Max(|l|, |r|) - i
  {
    if i < |l| || i < |r| {
      DifferencePositiveIff(l, r, i + 1);
      if PartAt(l, i) > PartAt(r, i) {
        assert LargerAt(l, r, i, i);
      } else if PartAt(l, i) == PartAt(r, i) {
        if k: nat :| LargerAt(l, r, i, k) {
          LargerLater(l, r, i, k);
        }
        var next := i + 1;
        if k: nat :| LargerAt(l, r, next, k) {
          LargerLater(l, r, i, k);
        }
      }
    }
  }

  lemma {:induction false} LargerLater(l: seq<int>, r: seq<int>, i: nat, k: nat)
    requires PartAt(l, i) == PartAt(r, i)
    ensures LargerAt(l, r, i, k) <==> LargerAt(l, r, i + 1, k)
  {
    if LargerAt(l, r, i + 1, k) {
      forall j: nat | i <= j < k ensures PartAt(l, j) == PartAt(r, j) {
      }
    }
  }

  /** A version is newer exactly if the first part in which the two differ is larger. */
  lemma {:induction false} NewerIff(a: Version, b: Version)
    ensures Compare(a, b) > 0 <==> exists k: nat :: LargerAt(a.parts, b.parts, 0, k)
  {
    DifferencePositiveIff(a.parts, b.parts, 0);
  }

  /** One more part makes a version newer if it is positive, older if it is negative, and the same if it is zero. */
  lemma {:induction false} OneMorePart(v: Version, n: int, text: string)
    ensures Compare(Version(text, v.parts + [n]), v) == n
  {
    OneMoreFrom(v.parts, n, 0);
  }

  lemma {:induction false} OneMoreFrom(parts: seq<int>, n: int, i: nat)
    requires i <= |parts|
    ensures Difference(parts + [n], parts, i) == n
    decreases |parts| - i
  {
    if i < |parts| {
      OneMoreFrom(parts, n, i + 1);
    }
  }

  // ---------------------------------------------------------------------------------------------
  // Resolution
  // ---------------------------------------------------------------------------------------------

  /** The first entry that a stable sort by descending version puts in front. */
  function Newest(entries: seq<Entry>): Option<Entry> {
    if entries == [] then None
    else
      var rest := Newest(entries[1..]);
      if rest.Some? && Compare(rest.value.version, entries[0].version) > 0 then rest else Some(entries[0])
  }

  function FirstNamed(entries: seq<Entry>, text: string): Option<Entry> {
    if entries == [] then None
    else if entries[0].version.text == text then Some(entries[0])
    else FirstNamed(entries[1..], text)
  }

  function FirstCurrent(entries: seq<Entry>): Option<Entry> {
    if entries == [] then None
    else if entries[0].isCurrent then Some(entries[0])
    else FirstCurrent(entries[1..])
  }

  function Resolve(g: Registry, wanted: Option<string>): Option<Entry> {
    var named := if wanted.Some? then FirstNamed(g.entries, wanted.value) else None;
    if named.Some? then named
    else if FirstCurrent(g.entries).Some? then FirstCurrent(g.entries)
    else Newest(g.entries)
  }

  lemma {:induction false} NewestIsUnbeaten(entries: seq<Entry>)
    ensures Newest(entries).None? <==> entries == []
    ensures entries != [] ==> Newest(entries).value in entries
    ensures entries != [] ==> forall e <- entries :: Compare(e.version, Newest(entries).value.version) <= 0
  {
    if entries != [] {
      NewestIsUnbeaten(entries[1..]);
      var n := Newest(entries).value;
      CompareIsPreorder(entries[0].version, entries[0].version, entries[0].version);
      forall e | e in entries ensures Compare(e.version, n.version) <= 0 {
        if e in entries[1..] {
          var m := Newest(entries[1..]).value;
          CompareIsPreorder(e.version, m.version, entries[0].version);
          CompareIsPreorder(m.version, entries[0].version, m.version);
        } else {
          assert e == entries[0];
          if entries[1..] != [] {
            CompareIsPreorder(e.version, n.version, e.version);
          }
        }
      }
    }
  }

  /** Of several entries that no other exceeds, the one listed first is the newest. */
  lemma {:induction false} NewestIsFirst(entries: seq<Entry>) returns (k: nat)
    requires entries != []
    ensures k < |entries| && Newest(entries) == Some(entries[k])
    ensures forall i | 0 <= i < k :: Compare(entries[i].version, entries[k].version) < 0
  {
    var rest := entries[1..];
    k := 0;
    if rest != [] {
      var r := NewestIsFirst(rest);
      if Compare(rest[r].version, entries[0].version) > 0 {
        k := r + 1;
        CompareIsPreorder(rest[r].version, entries[0].version, entries[0].version);
        forall i | 0 <= i < k ensures Compare(entries[i].version, entries[k].version) < 0 {
          assert i > 0 ==> entries[i] == rest[i - 1];
        }
      }
    }
  }

  lemma {:induction false} FirstNamedIff(entries: seq<Entry>, text: string)
    ensures FirstNamed(entries, text).Some? <==> exists e <- entries :: e.version.text == text
    ensures FirstNamed(entries, text).Some? ==>
              FirstNamed(entries, text).value in entries && FirstNamed(entries, text).value.version.text == text
  {
    if entries != [] {
      FirstNamedIff(entries[1..], text);
      assert entries == [entries[0]] + entries[1..];
    }
  }

  lemma {:induction false} FirstCurrentIff(entries: seq<Entry>)
    ensures FirstCurrent(entries).Some? <==> exists e <- entries :: e.isCurrent
    ensures FirstCurrent(entries).Some? ==> FirstCurrent(entries).value in entries && FirstCurrent(entries).value.isCurrent
  {
    if entries != [] {
      FirstCurrentIff(entries[1..]);
      assert entries == [entries[0]] + entries[1..];
    }
  }

  /**
   * Resolution finds something exactly in a registry that has versions: the one asked for if it
   * exists, else the current one if there is one, else one that no other version exceeds.
   */
  lemma {:induction false} ResolveFinds(g: Registry, wanted: Option<string>)
    ensures var r := Resolve(g, wanted);
      var named := wanted.Some? && exists e <- g.entries :: e.version.text == wanted.value;
      var current := exists e <- g.entries :: e.isCurrent;
      && (r.None? <==> g.entries == [])
      && (r.Some? ==> r.value in g.entries)
      && (named ==> r.Some? && r.value.version.text == wanted.value)
      && (!named && current ==> r.Some? && r.value.isCurrent)
      && (!named && !current && r.Some? ==> forall e <- g.entries :: Compare(e.version, r.value.version) <= 0)
  {
    if wanted.Some? {
      FirstNamedIff(g.entries, wanted.value);
    }
    FirstCurrentIff(g.entries);
    NewestIsUnbeaten(g.entries);
  }

  // ---------------------------------------------------------------------------------------------
  // Upserts
  // ---------------------------------------------------------------------------------------------

  function Demoted(entries: seq<Entry>): seq<Entry> {
    seq(|entries|, i requires 0 <= i < |entries| => entries[i].(isCurrent := false))
  }

  function Rewrite(entries: seq<Entry>, e: Entry): seq<Entry> {
    if entries == [] then [e]
    else if entries[0].version.text == e.version.text then [e.(version := entries[0].version)] + entries[1..]
    else [entries[0]] + Rewrite(entries[1..], e)
  }

  /** A new version becomes the newest entry, a known one is rewritten in place. */
  function Stored(entries: seq<Entry>, e: Entry): seq<Entry> {
    if FirstNamed(entries, e.version.text).Some? then Rewrite(entries, e) else [e] + entries
  }

  function Upserted(g: Registry, version: Version, schema: string, markAsCurrent: bool): Registry {
    Registry(
      if markAsCurrent then Some(version.text) else g.currentVersion,
      Stored(if markAsCurrent then Demoted(g.entries) else g.entries, Entry(version, schema, markAsCurrent)))
  }

  class AbiRegistryStore {
    var currentVersion: Option<string>
    var entries: seq<Entry>

    ghost function View(): Registry
      reads this
    {
      Registry(currentVersion, entries)
    }

    constructor ()
      ensures View() == Registry(None, [])
    {
      currentVersion, entries := None, [];
    }

    method UpsertRegistry(version: Version, schema: string, markAsCurrent: bool)
      modifies this
      ensures View() == Upserted(old(View()), version, schema, markAsCurrent)
    {
      if markAsCurrent {
        currentVersion := Some(version.text);
      }
      var existing := FirstNamed(entries, version.text);
      if markAsCurrent {
        DemotedNames(entries, version.text);
        entries := Demoted(entries);
      }
      var e := Entry(version, schema, markAsCurrent);
      if existing.Some? {
        entries := Rewrite(entries, e);
      } else {
        entries := [e] + entries;
      }
    }

    method ResolveRegistryVersion(wanted: Option<string>) returns (r: Option<Entry>)
      ensures r == Resolve(View(), wanted)
    {
      if wanted.Some? {
        r := FirstNamed(entries, wanted.value);
        if r.Some? {
          return;
        }
      }
      r := FirstCurrent(entries);
      if r.None? {
        r := Newest(entries);
      }
    }
  }

  lemma {:induction false} DemotedNames(entries: seq<Entry>, text: string)
    ensures FirstNamed(Demoted(entries), text).Some? <==> FirstNamed(entries, text).Some?
  {
    if entries != [] {
      DemotedNames(entries[1..], text);
      assert Demoted(entries)[1..] == Demoted(entries[1..]);
    }
  }

  function CurrentCount(entries: seq<Entry>): nat {
    if entries == [] then 0 else (if entries[0].isCurrent then 1 else 0) + CurrentCount(entries[1..])
  }

  /** Whether the entry flagged current, if there is one, has the given name. */
  predicate FlaggedIs(entries: seq<Entry>, text: string) {
    forall e <- entries :: e.isCurrent ==> e.version.text == text
  }

  predicate UniqueNames(entries: seq<Entry>) {
    forall i, j | 0 <= i < j < |entries| :: entries[i].version.text != entries[j].version.text
  }

  lemma {:induction false} RewriteKeeps(entries: seq<Entry>, e: Entry)
    requires UniqueNames(entries) && FirstNamed(entries, e.version.text).Some?
    ensures var r := Rewrite(entries, e);
      && |r| == |entries| && UniqueNames(r)
      && (forall i | 0 <= i < |r| :: r[i].version == entries[i].version)
      && (forall i | 0 <= i < |r| ::
           r[i].isCurrent == (if entries[i].version.text == e.version.text then e.isCurrent else entries[i].isCurrent))
  {
    if entries[0].version.text != e.version.text {
      var rest := entries[1..];
      assert forall i | 0 <= i < |rest| :: rest[i] == entries[i + 1];
      RewriteKeeps(rest, e);
      assert forall i | 1 <= i < |entries| :: entries[i] == rest[i - 1];
    } else {
      assert forall i | 1 <= i < |entries| :: entries[i].version.text != e.version.text;
    }
  }

  lemma {:induction false} AtMostOneCurrent(entries: seq<Entry>, text: string)
    requires UniqueNames(entries) && FlaggedIs(entries, text)
    ensures CurrentCount(entries) <= 1
    ensures CurrentCount(entries) == 1 <==> exists e <- entries :: e.isCurrent
  {
    if entries != [] {
      var rest := entries[1..];
      assert forall i | 0 <= i < |rest| :: rest[i] == entries[i + 1];
      AtMostOneCurrent(rest, text);
      if entries[0].isCurrent {
        assert entries[0] in entries;
        forall e | e in rest ensures !e.isCurrent {
          var i :| 0 <= i < |rest| && rest[i] == e;
          assert entries[i + 1] in entries;
        }
      }
    }
  }

  /** The names are unique, and only the entry the registry names as current may be flagged. */
  predicate Consistent(g: Registry) {
    UniqueNames(g.entries) && FlaggedIs(g.entries, if g.currentVersion.Some? then g.currentVersion.value else "")
    && (g.currentVersion.None? ==> forall e <- g.entries :: !e.isCurrent)
    && (g.currentVersion.Some? ==> FirstNamed(g.entries, g.currentVersion.value).Some?)
  }

  /** The registry's current version is flagged as such. */
  predicate Flagged(g: Registry) {
    g.currentVersion.Some? ==> exists e <- g.entries :: e.isCurrent && e.version.text == g.currentVersion.value
  }

  lemma {:induction false} StoredKeeps(entries: seq<Entry>, e: Entry, text: string)
    requires UniqueNames(entries) && FlaggedIs(entries, text)
    ensures UniqueNames(Stored(entries, e))
    ensures !e.isCurrent || e.version.text == text ==> FlaggedIs(Stored(entries, e), text)
  {
    var r := Stored(entries, e);
    FirstNamedIff(entries, e.version.text);
    assert forall i | 0 <= i < |entries| :: entries[i] in entries;
    if FirstNamed(entries, e.version.text).Some? {
      RewriteKeeps(entries, e);
    } else {
      assert forall i | 1 <= i < |r| :: r[i] == entries[i - 1];
    }
  }

  lemma {:induction false} UpsertIsConsistent(g: Registry, version: Version, schema: string, markAsCurrent: bool)
    requires Consistent(g)
    ensures Consistent(Upserted(g, version, schema, markAsCurrent))
    ensures CurrentCount(Upserted(g, version, schema, markAsCurrent).entries) <= 1
  {
    var base := if markAsCurrent then Demoted(g.entries) else g.entries;
    var e := Entry(version, schema, markAsCurrent);
    var r := Upserted(g, version, schema, markAsCurrent);
    var text := if r.currentVersion.Some? then r.currentVersion.value else "";
    assert UniqueNames(base) && FlaggedIs(base, text);
    StoredKeeps(base, e, text);
    if r.currentVersion.None? {
      NoneFlagged(g.entries, e);
    }
    CurrentStillNamed(g, version, schema, markAsCurrent);
    AtMostOneCurrent(r.entries, text);
    hide Stored, UniqueNames, FlaggedIs, Demoted;
  }

  lemma {:induction false} NoneFlagged(entries: seq<Entry>, e: Entry)
    requires !e.isCurrent && forall x <- entries :: !x.isCurrent
    ensures forall x <- Stored(entries, e) :: !x.isCurrent
  {
    RewriteMembers(entries, e);
  }

  lemma {:induction false} RewriteMembers(entries: seq<Entry>, e: Entry)
    ensures forall x <- Rewrite(entries, e) :: x in entries || x.isCurrent == e.isCurrent
  {
    if entries != [] {
      RewriteMembers(entries[1..], e);
    }
  }

  lemma {:induction false} CurrentStillNamed(g: Registry, version: Version, schema: string, markAsCurrent: bool)
    requires Consistent(g)
    ensures var r := Upserted(g, version, schema, markAsCurrent);
      r.currentVersion.Some? ==> FirstNamed(r.entries, r.currentVersion.value).Some?
  {
    var base := if markAsCurrent then Demoted(g.entries) else g.entries;
    var e := Entry(version, schema, markAsCurrent);
    StoredNames(base, e, version.text);
    if !markAsCurrent && g.currentVersion.Some? {
      StoredNames(base, e, g.currentVersion.value);
    }
  }

  lemma {:induction false} StoredNames(entries: seq<Entry>, e: Entry, text: string)
    ensures FirstNamed(Stored(entries, e), text).Some? <==> FirstNamed(entries, text).Some? || text == e.version.text
  {
    RewriteNames(entries, e, text);
    assert ([e] + entries)[1..] == entries;
  }

  lemma {:induction false} RewriteNames(entries: seq<Entry>, e: Entry, text: string)
    ensures FirstNamed(Rewrite(entries, e), text).Some? <==> FirstNamed(entries, text).Some? || text == e.version.text
  {
    if entries != [] {
      RewriteNames(entries[1..], e, text);
      var same := entries[0].version.text == e.version.text;
      assert Rewrite(entries, e)[1..] == if same then entries[1..] else Rewrite(entries[1..], e);
    }
  }

  /**
   * The version a registry names as current stays flagged through an upsert exactly unless the
   * upsert rewrites that very version without marking it as current.
   */
  lemma {:induction false} StaysFlaggedIff(g: Registry, version: Version, schema: string, markAsCurrent: bool)
    requires Consistent(g) && Flagged(g)
    ensures Flagged(Upserted(g, version, schema, markAsCurrent))
       <==> markAsCurrent || g.currentVersion != Some(version.text)
  {
    var base := if markAsCurrent then Demoted(g.entries) else g.entries;
    var e := Entry(version, schema, markAsCurrent);
    var r := Upserted(g, version, schema, markAsCurrent);
    UpsertIsConsistent(g, version, schema, markAsCurrent);
    assert forall i | 0 <= i < |base| :: base[i].version == g.entries[i].version;
    FirstNamedIff(base, version.text);
    if FirstNamed(base, version.text).Some? {
      RewriteKeeps(base, e);
      var i :| 0 <= i < |base| && base[i].version.text == version.text;
      assert r.entries[i] in r.entries;
      if !markAsCurrent && g.currentVersion.Some? && g.currentVersion.value != version.text {
        var k :| 0 <= k < |base| && base[k].isCurrent && base[k].version.text == g.currentVersion.value;
        assert r.entries[k] in r.entries;
      }
    } else {
      DemotedNames(g.entries, version.text);
      assert r.entries[0] == e;
      if !markAsCurrent && g.currentVersion.Some? {
        var k :| 0 <= k < |base| && base[k].isCurrent && base[k].version.text == g.currentVersion.value;
        assert r.entries[k + 1] in r.entries;
      }
    }
  }

  datatype Upsert = Upsert(version: Version, schema: string, markAsCurrent: bool)

  function Run(g: Registry, ops: seq<Upsert>): Registry
    decreases |ops|
  {
    if ops == [] then g else Run(Upserted(g, ops[0].version, ops[0].schema, ops[0].markAsCurrent), ops[1..])
  }

  /** After any run of upserts, at most one version is current. */
  lemma {:induction false} EveryRunHasOneCurrent(g: Registry, ops: seq<Upsert>)
    requires Consistent(g)
    ensures Consistent(Run(g, ops)) && CurrentCount(Run(g, ops).entries) <= 1
    decreases |ops|
  {
    if ops == [] {
      AtMostOneCurrent(g.entries, if g.currentVersion.Some? then g.currentVersion.value else "");
    } else {
      hide Consistent, Upserted;
      UpsertIsConsistent(g, ops[0].version, ops[0].schema, ops[0].markAsCurrent);
      EveryRunHasOneCurrent(Upserted(g, ops[0].version, ops[0].schema, ops[0].markAsCurrent), ops[1..]);
    }
  }

  lemma {:induction false} NamedAfterRewrite(entries: seq<Entry>, e: Entry, text: string)
    ensures text != e.version.text ==> FirstNamed(Rewrite(entries, e), text) == FirstNamed(entries, text)
    ensures FirstNamed(Rewrite(entries, e), e.version.text).Some?
    ensures var r := FirstNamed(Rewrite(entries, e), e.version.text).value;
      r.schema == e.schema && r.isCurrent == e.isCurrent
  {
    if entries != [] {
      NamedAfterRewrite(entries[1..], e, text);
      var same := entries[0].version.text == e.version.text;
      assert Rewrite(entries, e)[1..] == if same then entries[1..] else Rewrite(entries[1..], e);
    } else {
      assert Rewrite(entries, e)[1..] == [];
    }
  }

  lemma {:induction false} NamedAfterDemotion(entries: seq<Entry>, text: string)
    ensures FirstNamed(Demoted(entries), text)
         == (var e := FirstNamed(entries, text); if e.Some? then Some(e.value.(isCurrent := false)) else None)
  {
    if entries != [] {
      NamedAfterDemotion(entries[1..], text);
      assert Demoted(entries)[1..] == Demoted(entries[1..]);
    }
  }

  /**
   * After an upsert its version is there with the given schema and flag; every other version is as
   * before, except that marking one as current takes the flag from all others.
   */
  lemma {:induction false} UpsertOutcome(g: Registry, version: Version, schema: string, markAsCurrent: bool, other: string)
    ensures var r := Upserted(g, version, schema, markAsCurrent);
      && r.currentVersion == (if markAsCurrent then Some(version.text) else g.currentVersion)
      && var e, was := FirstNamed(r.entries, version.text), FirstNamed(g.entries, other);
      && e.Some? && e.value.schema == schema && e.value.isCurrent == markAsCurrent
      && (other != version.text ==>
            FirstNamed(r.entries, other)
            == if was.Some? && markAsCurrent then Some(was.value.(isCurrent := false)) else was)
  {
    hide Rewrite, Demoted;
    var base := if markAsCurrent then Demoted(g.entries) else g.entries;
    var e := Entry(version, schema, markAsCurrent);
    NamedAfterDemotion(g.entries, other);
    NamedAfterRewrite(base, e, other);
    assert ([e] + base)[1..] == base;
  }
}
