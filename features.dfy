/** The feature data a customer record carries, and the ordering that
    `sortFeatureByCount` imposes on it: each feature's versions are sorted
    ascending by participation count with the comparator of
    server/util/init/initUtility.js, by the stable `Array.prototype.sort`. */
module Features {
  import opened Base

  /** One variant of a feature. `count` is absent until the store's unique
      count query has attached it. */
  datatype Version = Version(version: string, percent: int, count: Option<nat>)

  /** One entry of a feature list. A well-formed entry is a `{name, versions}`
      record; any other value (a string, a record without `versions`) reads
      as missing fields, `Feature(None, None)` for a non-record. */
  datatype Feature = Feature(name: Option<string>, versions: Option<seq<Version>>)

  /** The shape the store demands: a `{name, versions}` record. */
  predicate WellFormedFeature(f: Feature)
  {
    f.name.Some? && f.versions.Some?
  }

  /** An array of `{name, versions}` records. */
  predicate WellFormedList(fs: seq<Feature>)
  {
    forall i :: 0 <= i < |fs| ==> WellFormedFeature(fs[i])
  }

  /** Every version carries a count. */
  predicate Counted(vs: seq<Version>)
  {
    forall i :: 0 <= i < |vs| ==> vs[i].count.Some?
  }

  /** Every feature whose versions exist has counted versions. */
  predicate VersionsCounted(fs: seq<Feature>)
  {
    forall i :: 0 <= i < |fs| && fs[i].versions.Some? ==> Counted(fs[i].versions.value)
  }

  function Key(v: Version): (k: nat)
    requires v.count.Some?
  {
    v.count.value
  }

  /** Nondecreasing by count. */
  predicate SortedByCount(vs: seq<Version>)
    requires Counted(vs)
  {
    forall i, j :: 0 <= i < j < |vs| ==> Key(vs[i]) <= Key(vs[j])
  }

  /** Places `x` in front of the first element whose count is not smaller:
      one step of the stable sort (the comparator answers -1, 1 or 0). */
  function Insert(x: Version, s: seq<Version>): (r: seq<Version>)
    requires x.count.Some? && Counted(s)
    ensures multiset(r) == multiset(s) + multiset{x}
    ensures |r| == |s| + 1 && Counted(r)
    ensures r[0] == x || (s != [] && r[0] == s[0])
  {
    if s == [] || Key(x) <= Key(s[0]) then
      [x] + s
    else
      assert s == [s[0]] + s[1..];
      [s[0]] + Insert(x, s[1..])
  }

  /** A sorted list stays sorted when an element is inserted. */
  lemma {:induction false} InsertSorted(x: Version, s: seq<Version>)
    requires x.count.Some? && Counted(s) && SortedByCount(s)
    ensures SortedByCount(Insert(x, s))
  {
    if s != [] && Key(x) > Key(s[0]) {
      var rest := Insert(x, s[1..]);
      InsertSorted(x, s[1..]);
      assert Key(s[0]) <= Key(rest[0]);
      var r := [s[0]] + rest;
      forall i, j | 0 <= i < j < |r|
        ensures Key(r[i]) <= Key(r[j])
      {
        if i == 0 && j > 1 {
          assert Key(rest[0]) <= Key(rest[j - 1]);
        }
      }
    }
  }

  /** `versions.sort(sorter)`: the stable sort ascending by count, by
      insertion. What it promises is stated by the lemmas below. */
  function SortByCount(vs: seq<Version>): (r: seq<Version>)
    requires Counted(vs)
    ensures Counted(r)
  {
    if vs == [] then [] else Insert(vs[0], SortByCount(vs[1..]))
  }

  /** The sorted versions are nondecreasing by count. */
  lemma {:induction false} SortByCountSorted(vs: seq<Version>)
    requires Counted(vs)
    ensures SortedByCount(SortByCount(vs))
  {
    if vs != [] {
      SortByCountSorted(vs[1..]);
      InsertSorted(vs[0], SortByCount(vs[1..]));
    }
  }

  /** The sorted versions are a permutation of the versions, so there are
      as many of them. */
  lemma {:induction false} SortByCountPermutes(vs: seq<Version>)
    requires Counted(vs)
    ensures multiset(SortByCount(vs)) == multiset(vs)
    ensures |SortByCount(vs)| == |vs|
  {
    if vs != [] {
      SortByCountPermutes(vs[1..]);
      assert vs == [vs[0]] + vs[1..];
    }
  }

  /** The versions with count `c`, in their order: what a stable sort keeps. */
  function WithCount(vs: seq<Version>, c: nat): (r: seq<Version>)
    requires Counted(vs)
  {
    if vs == [] then []
    else (if Key(vs[0]) == c then [vs[0]] else []) + WithCount(vs[1..], c)
  }

  lemma {:induction false} InsertWithCount(x: Version, s: seq<Version>, c: nat)
    requires x.count.Some? && Counted(s)
    ensures WithCount(Insert(x, s), c) == (if Key(x) == c then [x] else []) + WithCount(s, c)
  {
    if s == [] || Key(x) <= Key(s[0]) {
      assert ([x] + s)[1..] == s;
    } else {
      InsertWithCount(x, s[1..], c);
      assert ([s[0]] + Insert(x, s[1..]))[1..] == Insert(x, s[1..]);
    }
  }

  /** Stability: versions with equal counts keep their relative order. */
  lemma {:induction false} SortByCountStable(vs: seq<Version>, c: nat)
    requires Counted(vs)
    ensures WithCount(SortByCount(vs), c) == WithCount(vs, c)
  {
    if vs != [] {
      SortByCountStable(vs[1..], c);
      InsertWithCount(vs[0], SortByCount(vs[1..]), c);
    }
  }

  /** A list already nondecreasing by count is left exactly as it is. */
  lemma {:induction false} SortByCountOfSorted(vs: seq<Version>)
    requires Counted(vs) && SortedByCount(vs)
    ensures SortByCount(vs) == vs
  {
    if vs != [] {
      SortByCountOfSorted(vs[1..]);
      assert vs == [vs[0]] + vs[1..];
    }
  }

  /** Sorting twice is sorting once. */
  lemma SortByCountIdempotent(vs: seq<Version>)
    requires Counted(vs)
    ensures SortByCount(SortByCount(vs)) == SortByCount(vs)
  {
    SortByCountSorted(vs);
    SortByCountOfSorted(SortByCount(vs));
  }

  /** One feature with its versions sorted; every other field kept. */
  function SortVersions(f: Feature): (g: Feature)
    requires f.versions.Some? && Counted(f.versions.value)
    ensures g.name == f.name && g.versions.Some?
    ensures Counted(g.versions.value)
  {
    f.(versions := Some(SortByCount(f.versions.value)))
  }

  /** The sorted feature's versions are a permutation of its versions,
      nondecreasing by count. */
  lemma SortVersionsSorts(f: Feature)
    requires f.versions.Some? && Counted(f.versions.value)
    ensures SortedByCount(SortVersions(f).versions.value)
    ensures multiset(SortVersions(f).versions.value) == multiset(f.versions.value)
  {
    SortByCountSorted(f.versions.value);
    SortByCountPermutes(f.versions.value);
  }

  /** Every feature has a versions list that `sort` can be called on. */
  predicate Sortable(fs: seq<Feature>)
  {
    forall i :: 0 <= i < |fs| ==> fs[i].versions.Some?
  }

  /** The index of the first feature without a versions list, or `|fs|`. */
  function FirstUnsortable(fs: seq<Feature>): (k: nat)
    ensures k <= |fs|
    ensures forall i :: 0 <= i < k ==> fs[i].versions.Some?
    ensures k < |fs| ==> fs[k].versions.None?
    ensures k == |fs| <==> Sortable(fs)
  {
    if fs == [] || fs[0].versions.None? then 0 else 1 + FirstUnsortable(fs[1..])
  }

  /** The feature list after the `for...of` loop of `sortFeatureByCount`
      has run: features are sorted one by one until the first one whose
      versions cannot be sorted, where the loop throws; that one and the
      rest stay as they were. */
  function SortPass(fs: seq<Feature>): (r: seq<Feature>)
    requires VersionsCounted(fs)
    ensures |r| == |fs| && VersionsCounted(r)
  {
    if fs == [] then []
    else if fs[0].versions.None? then fs
    else [SortVersions(fs[0])] + SortPass(fs[1..])
  }

  /** What the pass does to each feature: those before the first unsortable
      one are sorted and nothing else about them changes, the rest are
      untouched (no rollback of the features already sorted). */
  lemma {:induction false} SortPassEffect(fs: seq<Feature>)
    requires VersionsCounted(fs)
    ensures forall i :: 0 <= i < FirstUnsortable(fs) ==> SortPass(fs)[i] == SortVersions(fs[i])
    ensures SortPass(fs)[FirstUnsortable(fs)..] == fs[FirstUnsortable(fs)..]
  {
    if fs != [] && fs[0].versions.Some? {
      SortPassEffect(fs[1..]);
      var r := SortPass(fs);
      assert r == [SortVersions(fs[0])] + SortPass(fs[1..]);
      forall i | 0 <= i < FirstUnsortable(fs)
        ensures r[i] == SortVersions(fs[i])
      {
        if i > 0 {
          assert r[i] == SortPass(fs[1..])[i - 1];
        }
      }
    }
  }

  /** Conversely, a list built that way is the result of the pass. */
  lemma SortPassFromEffect(fs: seq<Feature>, r: seq<Feature>, k: nat)
    requires VersionsCounted(fs) && k == FirstUnsortable(fs) && |r| == |fs|
    requires forall i :: 0 <= i < k ==> r[i] == SortVersions(fs[i])
    requires forall i :: k <= i < |fs| ==> r[i] == fs[i]
    ensures r == SortPass(fs)
  {
    SortPassEffect(fs);
    var s := SortPass(fs);
    forall i | 0 <= i < |fs|
      ensures r[i] == s[i]
    {
      if i >= k {
        assert s[i] == s[k..][i - k];
      }
    }
  }

  /** One step of the pass: a feature reached before any unsortable one is
      sorted. */
  lemma SortPassAt(fs: seq<Feature>, i: nat)
    requires VersionsCounted(fs) && i < |fs| && i <= FirstUnsortable(fs) && fs[i].versions.Some?
    ensures i < FirstUnsortable(fs) && SortPass(fs)[i] == SortVersions(fs[i])
  {
    SortPassEffect(fs);
  }

  /** From the first unsortable feature on, the pass leaves the list as it
      was. */
  lemma SortPassBeyond(fs: seq<Feature>, i: nat)
    requires VersionsCounted(fs) && i <= FirstUnsortable(fs) && (i == |fs| || fs[i].versions.None?)
    ensures i == FirstUnsortable(fs)
    ensures forall k :: i <= k < |fs| ==> SortPass(fs)[k] == fs[k]
  {
    SortPassEffect(fs);
    forall k | i <= k < |fs|
      ensures SortPass(fs)[k] == fs[k]
    {
      assert SortPass(fs)[k] == SortPass(fs)[i..][k - i];
    }
  }

  /** After the pass, every feature before the first unsortable one has
      versions nondecreasing by count that are a permutation of its old
      versions, with the same name; the list keeps its length and order. */
  lemma SortPassSorts(fs: seq<Feature>, i: nat)
    requires VersionsCounted(fs) && i < FirstUnsortable(fs)
    ensures SortPass(fs)[i].name == fs[i].name
    ensures SortPass(fs)[i].versions.Some?
    ensures Counted(SortPass(fs)[i].versions.value)
    ensures SortedByCount(SortPass(fs)[i].versions.value)
    ensures multiset(SortPass(fs)[i].versions.value) == multiset(fs[i].versions.value)
  {
    SortPassEffect(fs);
    SortVersionsSorts(fs[i]);
  }

  /** A list whose versions lists are all already nondecreasing by count is
      left unchanged. */
  lemma {:induction false} SortPassOfSorted(fs: seq<Feature>)
    requires VersionsCounted(fs)
    requires forall i :: 0 <= i < |fs| && fs[i].versions.Some? ==> SortedByCount(fs[i].versions.value)
    ensures SortPass(fs) == fs
  {
    if fs != [] && fs[0].versions.Some? {
      SortByCountOfSorted(fs[0].versions.value);
      SortPassOfSorted(fs[1..]);
      assert fs == [fs[0]] + fs[1..];
    }
  }

  /** Running the pass twice changes nothing more than running it once. */
  lemma {:induction false} SortPassIdempotent(fs: seq<Feature>)
    requires VersionsCounted(fs)
    ensures SortPass(SortPass(fs)) == SortPass(fs)
  {
    if fs != [] && fs[0].versions.Some? {
      SortPassIdempotent(fs[1..]);
      var g := SortVersions(fs[0]);
      SortByCountSorted(fs[0].versions.value);
      SortByCountOfSorted(g.versions.value);
      var r := [g] + SortPass(fs[1..]);
      assert r[1..] == SortPass(fs[1..]);
    }
  }
}
