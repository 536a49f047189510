/** The keyed config diff (go/internal/configdiff/diff.go). */
module ConfigDiff {
  import opened Tables
  import Sorting

  /** One difference; an absent side is None. */
  datatype Change<T> = Change(key: string, before: Option<T>, after: Option<T>)

  /** A difference as it is reported. */
  datatype Entry<T> = Entry(path: string, before: Option<T>, after: Option<T>)

  function PathOf(prefix: string, key: string): string {
    prefix + "[" + key + "]"
  }

  // ----- the order of keys -----

  predicate StringLe(a: string, b: string) {
    a == [] || (b != [] && (a[0] < b[0] || (a[0] == b[0] && StringLe(a[1..], b[1..]))))
  }

  lemma {:induction false} StringLeTotal(a: string, b: string)
    ensures StringLe(a, b) || StringLe(b, a)
  {
    if a != [] && b != [] { StringLeTotal(a[1..], b[1..]); }
  }

  lemma {:induction false} StringLeAntisymmetric(a: string, b: string)
    requires StringLe(a, b) && StringLe(b, a)
    ensures a == b
  {
    if a != [] && b != [] {
      StringLeAntisymmetric(a[1..], b[1..]);
      assert a == [a[0]] + a[1..] && b == [b[0]] + b[1..];
    }
  }

  lemma {:induction false} StringLeTransitive(a: string, b: string, c: string)
    requires StringLe(a, b) && StringLe(b, c)
    ensures StringLe(a, c)
  {
    if a != [] && a[0] == b[0] && b[0] == c[0] { StringLeTransitive(a[1..], b[1..], c[1..]); }
  }

  lemma StringLeIsTotalOrder()
    ensures Sorting.TotalOrder(StringLe)
  {
    forall a, b ensures StringLe(a, b) || StringLe(b, a) { StringLeTotal(a, b); }
    forall a, b | StringLe(a, b) && StringLe(b, a) ensures a == b { StringLeAntisymmetric(a, b); }
    forall a, b, c | StringLe(a, b) && StringLe(b, c) ensures StringLe(a, c) { StringLeTransitive(a, b, c); }
  }

  // ----- the diff -----

  function At<T>(m: map<string, T>, key: string): Option<T> {
    if key in m then Some(m[key]) else None
  }

  predicate Differs<T(==)>(before: map<string, T>, after: map<string, T>, key: string) {
    At(before, key) != At(after, key)
  }

  function ChangesOver<T(==)>(before: map<string, T>, after: map<string, T>, keys: seq<string>): seq<Change<T>> {
    if keys == [] then []
    else
      var key := keys[|keys| - 1];
      ChangesOver(before, after, keys[..|keys| - 1])
      + if Differs(before, after, key) then [Change(key, At(before, key), At(after, key))] else []
  }

  /** The keys of both maps, once each, in ascending order. */
  ghost predicate KeyListing<T>(before: map<string, T>, after: map<string, T>, keys: seq<string>) {
    && Sorting.Sorted(keys, StringLe)
    && (forall i, j :: 0 <= i < j < |keys| ==> keys[i] != keys[j])
    && (forall k :: k in keys <==> k in before || k in after)
  }

  /** Collect a map's keys in some order, skipping those already collected from the other one. */
  method CollectKeys<T>(collected: seq<string>, seen: set<string>, m: map<string, T>) returns (keys: seq<string>)
    requires (forall k :: k in seen <==> k in collected)
    requires forall i, j :: 0 <= i < j < |collected| ==> collected[i] != collected[j]
    ensures forall k :: k in keys <==> k in collected || k in m
    ensures forall i, j :: 0 <= i < j < |keys| ==> keys[i] != keys[j]
  {
    keys := collected;
    var todo := m.Keys;
    while todo != {}
      invariant todo <= m.Keys
      invariant forall k :: k in keys <==> k in collected || k in m.Keys - todo
      invariant forall i, j :: 0 <= i < j < |keys| ==> keys[i] != keys[j]
      decreases |todo|
    {
      var key :| key in todo;
      if key !in seen { keys := keys + [key]; }
      todo := todo - {key};
    }
  }

  lemma SortedListing(keys: seq<string>)
    requires forall i, j :: 0 <= i < j < |keys| ==> keys[i] != keys[j]
    ensures var sorted := Sorting.Sort(keys, StringLe);
      && Sorting.Sorted(sorted, StringLe) && (forall k :: k in sorted <==> k in keys)
      && forall i, j :: 0 <= i < j < |sorted| ==> sorted[i] != sorted[j]
  {
    var sorted := Sorting.Sort(keys, StringLe);
    StringLeIsTotalOrder();
    Sorting.SortSorts(keys, StringLe);
    forall k ensures k in sorted <==> k in keys {
      assert k in sorted <==> k in multiset(sorted);
      assert k in keys <==> k in multiset(keys);
    }
    Sorting.NoRepeats(keys, sorted);
  }

  /** The comparison of one key, with the three cases of the source. */
  method CompareKey<T(==)>(prefix: string, before: map<string, T>, after: map<string, T>, key: string, project: T -> T)
    returns (found: seq<Entry<T>>)
    requires key in before || key in after
    ensures found == if Differs(before, after, key) then [ShowOne(prefix, ChangeAt(before, after, key), project)] else []
  {
    var path := PathOf(prefix, key);
    if key !in before { return [Entry(path, None, Some(project(after[key])))]; }
    if key !in after { return [Entry(path, Some(project(before[key])), None)]; }
    if before[key] != after[key] { return [Entry(path, Some(project(before[key])), Some(project(after[key])))]; }
    return [];
  }

  function ChangeAt<T>(before: map<string, T>, after: map<string, T>, key: string): Change<T> {
    Change(key, At(before, key), At(after, key))
  }

  lemma OneMoreKey<T>(prefix: string, before: map<string, T>, after: map<string, T>, done: seq<string>, key: string, project: T -> T)
    ensures Shown(prefix, ChangesOver(before, after, done + [key]), project)
         == Shown(prefix, ChangesOver(before, after, done), project)
            + if Differs(before, after, key) then [ShowOne(prefix, ChangeAt(before, after, key), project)] else []
  {
    assert (done + [key])[..|done|] == done;
    ShownAppend(prefix, ChangesOver(before, after, done), ChangeAt(before, after, key), project);
  }

  method SortedKeys<T>(before: map<string, T>, after: map<string, T>) returns (keys: seq<string>)
    ensures KeyListing(before, after, keys)
  {
    var collected := CollectKeys([], {}, before);
    collected := CollectKeys(collected, before.Keys, after);
    SortedListing(collected);
    return Sorting.Sort(collected, StringLe);
  }

  /** The changes that a diff of the two maps consists of. */
  ghost predicate IsDiff<T(!new)>(before: map<string, T>, after: map<string, T>, changes: seq<Change<T>>) {
    exists keys :: KeyListing(before, after, keys) && changes == ChangesOver(before, after, keys)
  }

  /** Compare two maps key by key; `project` only shapes what is shown. */
  method DiffMapsProjected<T(==,!new)>(prefix: string, before: map<string, T>, after: map<string, T>, project: T -> T)
    returns (entries: seq<Entry<T>>)
    ensures exists changes :: IsDiff(before, after, changes) && entries == Shown(prefix, changes, project)
    ensures exists keys :: Reports(prefix, before, after, project, keys, entries)
    ensures entries == [] <==> before == after
  {
    var sorted := SortedKeys(before, after);
    entries := [];
    for i := 0 to |sorted|
      invariant entries == Shown(prefix, ChangesOver(before, after, sorted[..i]), project)
    {
      assert sorted[i] in sorted && sorted[..i + 1] == sorted[..i] + [sorted[i]];
      OneMoreKey(prefix, before, after, sorted[..i], sorted[i], project);
      var found := CompareKey(prefix, before, after, sorted[i], project);
      entries := entries + found;
    }
    assert sorted[..|sorted|] == sorted;
    assert IsDiff(before, after, ChangesOver(before, after, sorted));
    DiffEmptyIffEqual(before, after, sorted);
    RedactionHidesNothing(prefix, ChangesOver(before, after, sorted), project);
    ReportedByIndex(prefix, before, after, project, sorted);
  }

  /** The plain map diff: read as changes, its entries turn the old map into the new one. */
  method DiffMaps<T(==,!new)>(prefix: string, before: map<string, T>, after: map<string, T>) returns (entries: seq<Entry<T>>)
    ensures exists changes :: && IsDiff(before, after, changes) && entries == Listed(prefix, changes) && Apply(before, changes) == after
    ensures entries == [] <==> before == after
  {
    entries := DiffMapsProjected(prefix, before, after, x => x);
    ghost var changes :| IsDiff(before, after, changes) && entries == Shown(prefix, changes, x => x);
    ghost var keys :| KeyListing(before, after, keys) && changes == ChangesOver(before, after, keys);
    ShownPlainly(prefix, changes);
    DiffIsPatch(before, after, keys);
  }

  function ShowSide<T>(o: Option<T>, project: T -> T): Option<T> {
    if o.Some? then Some(project(o.value)) else None
  }

  function ShowOne<T>(prefix: string, c: Change<T>, project: T -> T): Entry<T> {
    Entry(PathOf(prefix, c.key), ShowSide(c.before, project), ShowSide(c.after, project))
  }

  /** What is reported: the path of each key, the same absences, projected values. */
  function Shown<T>(prefix: string, changes: seq<Change<T>>, project: T -> T): seq<Entry<T>> {
    if changes == [] then []
    else Shown(prefix, changes[..|changes| - 1], project) + [ShowOne(prefix, changes[|changes| - 1], project)]
  }

  /** The changes with their paths and nothing redacted. */
  function Listed<T>(prefix: string, changes: seq<Change<T>>): seq<Entry<T>> {
    seq(|changes|, i requires 0 <= i < |changes| => Entry(PathOf(prefix, changes[i].key), changes[i].before, changes[i].after))
  }

  lemma {:induction false} ShownPlainly<T>(prefix: string, changes: seq<Change<T>>)
    ensures Shown(prefix, changes, x => x) == Listed(prefix, changes)
  {
    if changes != [] {
      var n := |changes| - 1;
      ShownPlainly(prefix, changes[..n]);
      assert Listed(prefix, changes) == Listed(prefix, changes[..n]) + [Entry(PathOf(prefix, changes[n].key), changes[n].before, changes[n].after)];
    }
  }

  lemma ShownAppend<T>(prefix: string, changes: seq<Change<T>>, c: Change<T>, project: T -> T)
    ensures Shown(prefix, changes + [c], project) == Shown(prefix, changes, project) + [ShowOne(prefix, c, project)]
    ensures changes + [] == changes
  {
    assert (changes + [c])[..|changes|] == changes;
  }

  // ----- the diff is a patch -----

  predicate StrictlyAscending<T>(changes: seq<Change<T>>) {
    forall i, j :: 0 <= i < j < |changes| ==> StringLe(changes[i].key, changes[j].key) && changes[i].key != changes[j].key
  }

  function Apply<T>(m: map<string, T>, changes: seq<Change<T>>): map<string, T> {
    if changes == [] then m
    else
      var c := changes[|changes| - 1];
      var patched := Apply(m, changes[..|changes| - 1]);
      if c.after.Some? then patched[c.key := c.after.value] else patched - {c.key}
  }

  /** Exactly one change per differing key, in strictly ascending key order. */
  lemma {:induction false} ChangesListed<T>(before: map<string, T>, after: map<string, T>, keys: seq<string>)
    requires Sorting.Sorted(keys, StringLe) && forall i, j :: 0 <= i < j < |keys| ==> keys[i] != keys[j]
    ensures var changes := ChangesOver(before, after, keys);
      && StrictlyAscending(changes)
      && (forall i :: 0 <= i < |changes| ==>
            && changes[i].key in keys && Differs(before, after, changes[i].key)
            && changes[i].before == At(before, changes[i].key) && changes[i].after == At(after, changes[i].key))
      && (forall k :: k in keys && Differs(before, after, k) ==> exists i :: 0 <= i < |changes| && changes[i].key == k)
  {
    if keys != [] {
      var n := |keys| - 1;
      var (init, all) := (ChangesOver(before, after, keys[..n]), ChangesOver(before, after, keys));
      ChangesListed(before, after, keys[..n]);
      forall k | k in keys && Differs(before, after, k) ensures exists i :: 0 <= i < |all| && all[i].key == k {
        if k == keys[n] {
          assert all[|init|].key == k;
        } else {
          assert k in keys[..n];
          var i :| 0 <= i < |init| && init[i].key == k;
          assert all[i].key == k;
        }
      }
    }
  }

  lemma {:induction false} ApplyAt<T>(before: map<string, T>, after: map<string, T>, keys: seq<string>, k: string)
    ensures At(Apply(before, ChangesOver(before, after, keys)), k) == if k in keys then At(after, k) else At(before, k)
  {
    if keys != [] {
      var n := |keys| - 1;
      var (init, all) := (ChangesOver(before, after, keys[..n]), ChangesOver(before, after, keys));
      ApplyAt(before, after, keys[..n], k);
      assert k in keys <==> k in keys[..n] || k == keys[n];
      if Differs(before, after, keys[n]) {
        assert all[..|all| - 1] == init;
      } else {
        assert all == init;
      }
    }
  }

  /** Applying the diff to the old map yields the new one. */
  lemma DiffIsPatch<T>(before: map<string, T>, after: map<string, T>, keys: seq<string>)
    requires KeyListing(before, after, keys)
    ensures Apply(before, ChangesOver(before, after, keys)) == after
  {
    var patched := Apply(before, ChangesOver(before, after, keys));
    forall k ensures At(patched, k) == At(after, k) { ApplyAt(before, after, keys, k); }
    SameEverywhere(patched, after);
  }

  lemma SameEverywhere<T>(a: map<string, T>, b: map<string, T>)
    requires forall k :: At(a, k) == At(b, k)
    ensures a == b
  {
    forall k ensures k in a <==> k in b { assert At(a, k) == At(b, k); }
    forall k | k in a ensures a[k] == b[k] { assert At(a, k) == At(b, k); }
  }

  /** The diff is empty exactly when the maps are equal. */
  lemma DiffEmptyIffEqual<T>(before: map<string, T>, after: map<string, T>, keys: seq<string>)
    requires KeyListing(before, after, keys)
    ensures ChangesOver(before, after, keys) == [] <==> before == after
  {
    DiffIsPatch(before, after, keys);
    if before == after { ChangesListed(before, after, keys); }
  }

  /** Redaction never hides a change: every change is reported under its own path, in order. */
  lemma {:induction false} RedactionHidesNothing<T>(prefix: string, changes: seq<Change<T>>, project: T -> T)
    ensures |Shown(prefix, changes, project)| == |changes|
    ensures forall i :: 0 <= i < |changes| ==>
      && Shown(prefix, changes, project)[i].path == PathOf(prefix, changes[i].key)
      && (Shown(prefix, changes, project)[i].before.Some? <==> changes[i].before.Some?)
      && (Shown(prefix, changes, project)[i].after.Some? <==> changes[i].after.Some?)
  {
    if changes != [] { RedactionHidesNothing(prefix, changes[..|changes| - 1], project); }
  }

  /** The maps disagree about the key: one lacks it, or they hold different values. */
  ghost predicate Disagree<T>(before: map<string, T>, after: map<string, T>, k: string) {
    ((k in before) != (k in after)) || (k in before && k in after && before[k] != after[k])
  }

  /** What one side of an entry shows: the projection of the stored value, or nothing if there is none. */
  ghost predicate Shows<T>(shown: Option<T>, m: map<string, T>, k: string, project: T -> T) {
    (shown.Some? <==> k in m) && (shown.Some? ==> shown.value == project(m[k]))
  }

  /** The entries report exactly the keys on which the maps disagree, in strictly ascending order, each
      under its path with the projection of both stored values. */
  ghost predicate Reports<T(!new)>(
    prefix: string, before: map<string, T>, after: map<string, T>, project: T -> T, keys: seq<string>, entries: seq<Entry<T>>)
  {
    && |keys| == |entries| && (forall k :: k in keys <==> Disagree(before, after, k))
    && (forall i, j :: 0 <= i < j < |keys| ==> StringLe(keys[i], keys[j]) && keys[i] != keys[j])
    && (forall i :: 0 <= i < |entries| ==>
          && entries[i].path == prefix + "[" + keys[i] + "]"
          && Shows(entries[i].before, before, keys[i], project) && Shows(entries[i].after, after, keys[i], project))
  }

  lemma {:induction false} ShownAt<T>(prefix: string, changes: seq<Change<T>>, project: T -> T, i: nat)
    requires i < |changes|
    ensures |Shown(prefix, changes, project)| == |changes|
    ensures Shown(prefix, changes, project)[i] == ShowOne(prefix, changes[i], project)
  {
    var init := changes[..|changes| - 1];
    if i < |init| { ShownAt(prefix, init, project, i); } else { RedactionHidesNothing(prefix, init, project); }
    RedactionHidesNothing(prefix, changes, project);
  }

  lemma DiffersIff<T>(before: map<string, T>, after: map<string, T>, k: string)
    ensures Differs(before, after, k) <==> Disagree(before, after, k)
  {
  }

  function KeysOf<T>(changes: seq<Change<T>>): seq<string> {
    seq(|changes|, i requires 0 <= i < |changes| => changes[i].key)
  }

  lemma KeysDisagree<T>(before: map<string, T>, after: map<string, T>, listing: seq<string>, k: string)
    requires KeyListing(before, after, listing)
    ensures k in KeysOf(ChangesOver(before, after, listing)) <==> Disagree(before, after, k)
  {
    var changes := ChangesOver(before, after, listing);
    ChangesListed(before, after, listing);
    DiffersIff(before, after, k);
    if Differs(before, after, k) {
      assert k in listing;
      var i :| 0 <= i < |changes| && changes[i].key == k;
      assert KeysOf(changes)[i] == k;
    }
  }

  lemma EntryReports<T>(prefix: string, before: map<string, T>, after: map<string, T>, project: T -> T, listing: seq<string>, i: nat)
    requires KeyListing(before, after, listing) && i < |ChangesOver(before, after, listing)|
    ensures var changes := ChangesOver(before, after, listing);
      && |Shown(prefix, changes, project)| == |changes|
      && var (entry, key) := (Shown(prefix, changes, project)[i], KeysOf(changes)[i]);
         && entry.path == prefix + "[" + key + "]"
         && Shows(entry.before, before, key, project) && Shows(entry.after, after, key, project)
  {
    ChangesListed(before, after, listing);
    ShownAt(prefix, ChangesOver(before, after, listing), project, i);
  }

  lemma ReportedByIndex<T(!new)>(prefix: string, before: map<string, T>, after: map<string, T>, project: T -> T, listing: seq<string>)
    requires KeyListing(before, after, listing)
    ensures var changes := ChangesOver(before, after, listing);
      Reports(prefix, before, after, project, KeysOf(changes), Shown(prefix, changes, project))
  {
    var changes := ChangesOver(before, after, listing);
    RedactionHidesNothing(prefix, changes, project);
    ChangesListed(before, after, listing);
    forall k ensures k in KeysOf(changes) <==> Disagree(before, after, k) { KeysDisagree(before, after, listing, k); }
    forall i | 0 <= i < |changes|
      ensures var (entry, key) := (Shown(prefix, changes, project)[i], KeysOf(changes)[i]);
        && entry.path == prefix + "[" + key + "]"
        && Shows(entry.before, before, key, project) && Shows(entry.after, after, key, project)
    {
      EntryReports(prefix, before, after, project, listing, i);
    }
  }

  /** Different keys are shown under different paths. */
  lemma PathsTellKeysApart(prefix: string, a: string, b: string)
    requires PathOf(prefix, a) == PathOf(prefix, b)
    ensures a == b
  {
    var p := PathOf(prefix, a);
    assert p[|prefix| + 1..|p| - 1] == a && PathOf(prefix, b)[|prefix| + 1..|p| - 1] == b;
  }
}
