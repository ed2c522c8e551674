/** The order in which both the local and the FTP listings are shown:
    directories before files, then by lower-cased name. Both `list_directory` and
    `list_remote_directory` sort their entries in place with a comparator that
    first compares the directory flags, reversed, and only on a tie compares
    the lower-cased names. */
module Ordering {
  import opened Text

  datatype Ordering = Less | Equal | Greater

  /** What the comparator looks at in an entry. */
  datatype SortKey = SortKey(isDir: bool, name: string)

  /** `Ord` on `String`: lexicographic by character. */
  function LexCompare(x: string, y: string): (o: Ordering)
    ensures o == Equal <==> x == y
    ensures IsPrefix(x, y) && x != y ==> o == Less
  {
    if x == [] && y == [] then Equal
    else if x == [] then Less
    else if y == [] then Greater
    else if x[0] < y[0] then Less
    else if x[0] > y[0] then Greater
    else LexCompare(x[1..], y[1..])
  }

  /** The listing comparator. `true > false` for `bool`, so comparing `b.is_dir`
      with `a.is_dir` puts directories first. */
  function Compare(a: SortKey, b: SortKey): (o: Ordering)
    ensures a.isDir && !b.isDir ==> o == Less
    ensures !a.isDir && b.isDir ==> o == Greater
  {
    if a.isDir && !b.isDir then Less
    else if !a.isDir && b.isDir then Greater
    else LexCompare(Lower(a.name), Lower(b.name))
  }

  predicate KeyLe(a: SortKey, b: SortKey)
  {
    Compare(a, b) != Greater
  }

  function Flip(o: Ordering): Ordering
  {
    match o
    case Less => Greater
    case Equal => Equal
    case Greater => Less
  }

  lemma {:induction false} LexAntisymmetric(x: string, y: string)
    ensures LexCompare(y, x) == Flip(LexCompare(x, y))
    ensures LexCompare(x, y) == Equal <==> x == y
  {
    if x != [] && y != [] && x[0] == y[0] {
      LexAntisymmetric(x[1..], y[1..]);
      if x[1..] == y[1..] {
        assert x == [x[0]] + x[1..] && y == [y[0]] + y[1..];
      }
    }
  }

  lemma {:induction false} LexTransitive(x: string, y: string, z: string)
    requires LexCompare(x, y) != Greater && LexCompare(y, z) != Greater
    ensures LexCompare(x, z) != Greater
  {
    if x != [] && y != [] && z != [] && x[0] == y[0] == z[0] {
      LexTransitive(x[1..], y[1..], z[1..]);
    }
  }

  /** Any two keys are comparable, and the comparator is antisymmetric. */
  lemma CompareFlips(a: SortKey, b: SortKey)
    ensures Compare(b, a) == Flip(Compare(a, b))
    ensures KeyLe(a, b) || KeyLe(b, a)
  {
    LexAntisymmetric(Lower(a.name), Lower(b.name));
  }

  /** Keys compare `Equal` exactly when they agree on kind and on the lower-cased
      name: `"Readme"` and `"README"` tie. */
  lemma CompareEqual(a: SortKey, b: SortKey)
    ensures Compare(a, b) == Equal <==> a.isDir == b.isDir && Lower(a.name) == Lower(b.name)
  {
    LexAntisymmetric(Lower(a.name), Lower(b.name));
  }

  lemma KeyLeTransitive(a: SortKey, b: SortKey, c: SortKey)
    requires KeyLe(a, b) && KeyLe(b, c)
    ensures KeyLe(a, c)
  {
    if a.isDir == b.isDir == c.isDir {
      LexTransitive(Lower(a.name), Lower(b.name), Lower(c.name));
    }
  }

  /** Every directory precedes every file; within each group, names are in
      non-decreasing lower-cased order. */
  ghost predicate SortedBy<T>(s: seq<T>, key: T -> SortKey)
  {
    forall i, j :: 0 <= i < j < |s| ==> KeyLe(key(s[i]), key(s[j]))
  }

  /** What a sorted listing means in the system's own terms. */
  lemma SortedMeansDirsFirst<T>(s: seq<T>, key: T -> SortKey, i: nat, j: nat)
    requires SortedBy(s, key)
    requires i < |s| && j < |s|
    requires key(s[j]).isDir && !key(s[i]).isDir
    ensures j < i
  {
  }

  /** All pairs in `s[..hi+1]` are in order, except possibly those involving
      position `j`. */
  ghost predicate SortedExcept<T>(s: seq<T>, key: T -> SortKey, j: nat, hi: nat)
    requires j <= hi < |s|
  {
    forall k, l :: 0 <= k < l <= hi && k != j && l != j ==> KeyLe(key(s[k]), key(s[l]))
  }

  /** The element at `j` is strictly below everything after it, up to `hi`. */
  ghost predicate BelowRest<T>(s: seq<T>, key: T -> SortKey, j: nat, hi: nat)
    requires j <= hi < |s|
  {
    forall l :: j < l <= hi ==> Compare(key(s[j]), key(s[l])) == Less
  }

  lemma SwapStep<T>(s: seq<T>, key: T -> SortKey, j: nat, hi: nat)
    requires 0 < j <= hi < |s|
    requires SortedExcept(s, key, j, hi) && BelowRest(s, key, j, hi)
    requires Compare(key(s[j - 1]), key(s[j])) == Greater
    ensures var t := s[j - 1 := s[j]][j := s[j - 1]];
      SortedExcept(t, key, j - 1, hi) && BelowRest(t, key, j - 1, hi)
  {
    CompareFlips(key(s[j - 1]), key(s[j]));
  }

  lemma InsertDone<T>(s: seq<T>, key: T -> SortKey, j: nat, hi: nat)
    requires j <= hi < |s|
    requires SortedExcept(s, key, j, hi) && BelowRest(s, key, j, hi)
    requires j == 0 || KeyLe(key(s[j - 1]), key(s[j]))
    ensures SortedBy(s[..hi + 1], key)
  {
    forall k, l | 0 <= k < l <= hi
      ensures KeyLe(key(s[k]), key(s[l]))
    {
      if l == j && k < j - 1 {
        KeyLeTransitive(key(s[k]), key(s[j - 1]), key(s[j]));
      }
    }
  }

  /** Moves `a[i]` down into the sorted prefix `a[..i]`, swapping it past every
      element that compares `Greater`; equal elements are not passed, which keeps
      the sort stable. */
  method InsertInto<T>(a: array<T>, i: nat, key: T -> SortKey)
    requires i < a.Length
    requires SortedBy(a[..i], key)
    modifies a
    ensures SortedBy(a[..i + 1], key)
    ensures multiset(a[..]) == multiset(old(a[..]))
  {
    var j := i;
    while j > 0 && Compare(key(a[j - 1]), key(a[j])) == Greater
      invariant 0 <= j <= i
      invariant SortedExcept(a[..], key, j, i) && BelowRest(a[..], key, j, i)
      invariant multiset(a[..]) == multiset(old(a[..]))
    {
      SwapStep(a[..], key, j, i);
      a[j - 1], a[j] := a[j], a[j - 1];
      j := j - 1;
    }
    InsertDone(a[..], key, j, i);
  }

  /** The in-place `sort_by` of both listings, as a stable insertion sort. */
  method SortByKey<T>(a: array<T>, key: T -> SortKey)
    modifies a
    ensures SortedBy(a[..], key)
    ensures multiset(a[..]) == multiset(old(a[..]))
  {
    var i := 0;
    while i < a.Length
      invariant 0 <= i <= a.Length
      invariant SortedBy(a[..i], key)
      invariant multiset(a[..]) == multiset(old(a[..]))
    {
      InsertInto(a, i, key);
      i := i + 1;
    }
    assert a[..a.Length] == a[..];
  }
}
