/** Comparing two slices by sorting both in place and testing for equality. */
module SortCompare {

  // The order by key, as the library's sort sees it: two elements with equal keys are below each other.
  type Order<!T> = (T, T) -> bool

  ghost predicate IsOrder<T(!new)>(le: Order<T>) {
    && (forall x, y :: le(x, y) || le(y, x))
    && (forall x, y, z :: le(x, y) && le(y, z) ==> le(x, z))
  }

  ghost predicate Sorted<T>(s: seq<T>, le: Order<T>) {
    forall i, j :: 0 <= i < j < |s| ==> le(s[i], s[j])
  }

  /** An arrangement the library's sort may leave behind; it need not be stable. */
  ghost predicate SortOf<T>(r: seq<T>, s: seq<T>, le: Order<T>) {
    multiset(r) == multiset(s) && Sorted(r, le)
  }

  /** Elements with equal keys are equal. */
  ghost predicate KeysDecide<T(!new)>(s: seq<T>, le: Order<T>) {
    forall x, y :: x in s && y in s && le(x, y) && le(y, x) ==> x == y
  }

  /** Sorts both slices in place and reports whether they differ. The arrangements ra and rb are what the library's sort
      makes of them. */
  method SortAndCompare<T(==, !new)>(a: array<T>, b: array<T>, ghost le: Order<T>, ra: seq<T>, rb: seq<T>) returns (differ: bool)
    requires SortOf(ra, a[..], le) && SortOf(rb, b[..], le)
    modifies a, b
    ensures a.Length != b.Length ==> differ && a[..] == old(a[..]) && b[..] == old(b[..])
    ensures a.Length == b.Length && a != b ==> a[..] == ra && b[..] == rb && (differ <==> ra != rb)
    ensures a == b ==> a[..] == rb && !differ
    ensures multiset(a[..]) == multiset(old(a[..])) && multiset(b[..]) == multiset(old(b[..]))
  {
    if a.Length != b.Length { return true; }
    SameLength(ra, a[..]);
    SameLength(rb, b[..]);
    Rearrange(a, ra);
    Rearrange(b, rb);
    var i := 0;
    while i < a.Length && a[i] == b[i]
      invariant i <= a.Length && forall k :: 0 <= k < i ==> a[k] == b[k]
    {
      i := i + 1;
    }
    differ := i < a.Length;
    if differ { assert a[..][i] != b[..][i]; } else { assert a[..] == b[..]; }
  }

  method Rearrange<T>(a: array<T>, r: seq<T>)
    requires |r| == a.Length
    modifies a
    ensures a[..] == r
  {
    for i := 0 to a.Length
      invariant a[..i] == r[..i]
    {
      a[i] := r[i];
    }
  }

  lemma SameLength<T>(r: seq<T>, s: seq<T>)
    requires multiset(r) == multiset(s)
    ensures |r| == |s|
  {
    assert |multiset(r)| == |multiset(s)|;
  }

  /******* When the arrangement is unique *******/

  lemma DropFirst<T>(s: seq<T>)
    requires s != []
    ensures multiset(s) == multiset{s[0]} + multiset(s[1..])
    ensures multiset(s[1..]) == multiset(s) - multiset{s[0]}
  {
    assert s == [s[0]] + s[1..];
  }

  /** Sorted arrangements of the same elements are equal if keys decide. */
  lemma {:induction false} ArrangementUnique<T(!new)>(r: seq<T>, t: seq<T>, le: Order<T>)
    requires IsOrder(le) && Sorted(r, le) && Sorted(t, le) && multiset(r) == multiset(t) && KeysDecide(r, le)
    ensures r == t
  {
    SameLength(r, t);
    if r == [] {
    } else {
      SameFirst(r, t, le);
      DropFirst(r);
      DropFirst(t);
      RestKeeps(r, le);
      RestKeeps(t, le);
      hide KeysDecide, IsOrder, Sorted;
      ArrangementUnique(r[1..], t[1..], le);
      assert r == [r[0]] + r[1..] && t == [t[0]] + t[1..];
    }
  }

  lemma RestKeeps<T(!new)>(r: seq<T>, le: Order<T>)
    requires r != []
    ensures Sorted(r, le) ==> Sorted(r[1..], le)
    ensures KeysDecide(r, le) ==> KeysDecide(r[1..], le)
  {
  }

  lemma SameFirst<T(!new)>(r: seq<T>, t: seq<T>, le: Order<T>)
    requires IsOrder(le) && Sorted(r, le) && Sorted(t, le) && multiset(r) == multiset(t) && KeysDecide(r, le)
    requires r != [] && t != []
    ensures r[0] == t[0]
  {
    var x, y := r[0], t[0];
    assert x in multiset(t) && y in multiset(r);
    BelowAll(t, x, le);
    BelowAll(r, y, le);
  }

  lemma BelowAll<T(!new)>(s: seq<T>, x: T, le: Order<T>)
    requires IsOrder(le) && Sorted(s, le) && x in s
    ensures le(s[0], x)
  {
    var i :| 0 <= i < |s| && s[i] == x;
  }

  /******* When it is not *******/

  // Elements at i and j of a sorted sequence that have equal keys can trade places.
  lemma Swapped<T(!new)>(s: seq<T>, i: nat, j: nat, le: Order<T>)
    requires IsOrder(le) && Sorted(s, le) && i < j < |s| && le(s[j], s[i])
    ensures SortOf(s[i := s[j]][j := s[i]], s, le)
  {
    var t := s[i := s[j]][j := s[i]];
    forall a, b | 0 <= a < b < |t| ensures le(t[a], t[b]) {
      var x, y := s[a], s[b];
      assert le(s[i], s[j]) && le(s[j], s[i]);
      assert a < i ==> le(s[a], s[i]) && le(s[a], s[j]);
      assert i < b < j ==> le(s[i], s[b]) && le(s[b], s[j]);
      assert i < a < j ==> le(s[i], s[a]) && le(s[a], s[j]);
      assert j < b ==> le(s[i], s[b]) && le(s[j], s[b]);
    }
  }

  function Insert<T>(x: T, s: seq<T>, le: Order<T>): seq<T> {
    if s == [] then [x] else if le(x, s[0]) then [x] + s else [s[0]] + Insert(x, s[1..], le)
  }

  function Arrange<T>(s: seq<T>, le: Order<T>): seq<T> {
    if s == [] then [] else Insert(s[0], Arrange(s[1..], le), le)
  }

  lemma {:induction false} InsertKeeps<T(!new)>(x: T, s: seq<T>, le: Order<T>)
    requires IsOrder(le) && Sorted(s, le)
    ensures Sorted(Insert(x, s, le), le) && multiset(Insert(x, s, le)) == multiset{x} + multiset(s)
  {
    if s == [] {
    } else {
      DropFirst(s);
      if !le(x, s[0]) {
        InsertKeeps(x, s[1..], le);
        var rest := Insert(x, s[1..], le);
        forall y | y in rest ensures le(s[0], y) {
          assert y in multiset(rest);
          if y in s[1..] { BelowAll(s, y, le); }
        }
        hide Insert;
        SortedOnto(s[0], rest, le);
      } else {
        forall y | y in s ensures le(x, y) { BelowAll(s, y, le); }
        hide Insert;
        SortedOnto(x, s, le);
      }
    }
  }

  lemma SortedOnto<T(!new)>(x: T, s: seq<T>, le: Order<T>)
    requires Sorted(s, le) && forall y :: y in s ==> le(x, y)
    ensures Sorted([x] + s, le)
  {
  }

  /** Every slice can be sorted. */
  lemma {:induction false} ArrangeSorts<T(!new)>(s: seq<T>, le: Order<T>)
    requires IsOrder(le)
    ensures SortOf(Arrange(s, le), s, le)
  {
    if s == [] {
    } else {
      ArrangeSorts(s[1..], le);
      InsertKeeps(s[0], Arrange(s[1..], le), le);
      DropFirst(s);
    }
  }

  /** Slices are found equal however ties are broken, if and only if they have the same elements and elements with equal
      keys are equal. */
  lemma FoundEqualExactly<T(!new)>(a: seq<T>, b: seq<T>, le: Order<T>)
    requires IsOrder(le)
    ensures (forall ra, rb :: SortOf(ra, a, le) && SortOf(rb, b, le) ==> ra == rb) <==>
      multiset(a) == multiset(b) && KeysDecide(a, le)
  {
    if multiset(a) == multiset(b) && KeysDecide(a, le) {
      forall ra, rb | SortOf(ra, a, le) && SortOf(rb, b, le) ensures ra == rb {
        KeysDecideHere(a, ra, le);
        ArrangementUnique(ra, rb, le);
      }
    } else {
      var ra, rb := FoundDifferent(a, b, le);
    }
    hide SortOf, KeysDecide, IsOrder;
  }

  lemma FoundDifferent<T(!new)>(a: seq<T>, b: seq<T>, le: Order<T>) returns (ra: seq<T>, rb: seq<T>)
    requires IsOrder(le) && !(multiset(a) == multiset(b) && KeysDecide(a, le))
    ensures SortOf(ra, a, le) && SortOf(rb, b, le) && ra != rb
  {
    ra, rb := Arrange(a, le), Arrange(b, le);
    ArrangeSorts(a, le);
    ArrangeSorts(b, le);
    hide Arrange, Sorted, IsOrder;
    if multiset(a) == multiset(b) {
      var x, y :| x in a && y in a && le(x, y) && le(y, x) && x != y;
      var i, j := Positions(ra, a, x, y);
      Swapped(ra, i, j, le);
      rb := ra[i := ra[j]][j := ra[i]];
      assert ra[i] != rb[i];
    }
  }

  lemma KeysDecideHere<T(!new)>(a: seq<T>, ra: seq<T>, le: Order<T>)
    requires KeysDecide(a, le) && multiset(ra) == multiset(a)
    ensures KeysDecide(ra, le)
  {
    forall x | x in ra ensures x in a { assert x in multiset(a); }
  }

  lemma Positions<T>(r: seq<T>, a: seq<T>, x: T, y: T) returns (i: nat, j: nat)
    requires multiset(r) == multiset(a) && x in a && y in a && x != y
    ensures i < j < |r| && {r[i], r[j]} == {x, y}
  {
    assert x in multiset(r) && y in multiset(r);
    var k :| 0 <= k < |r| && r[k] == x;
    var l :| 0 <= l < |r| && r[l] == y;
    i, j := if k < l then k else l, if k < l then l else k;
  }

  /** Distinct keys: no difference means exactly the same elements. */
  lemma DistinctKeysExactly<T(!new)>(a: seq<T>, b: seq<T>, ra: seq<T>, rb: seq<T>, le: Order<T>)
    requires IsOrder(le) && KeysDecide(a, le) && SortOf(ra, a, le) && SortOf(rb, b, le)
    ensures ra == rb <==> multiset(a) == multiset(b)
  {
    if multiset(a) == multiset(b) { FoundEqualExactly(a, b, le); }
  }

  // Records sorted by their first field.
  predicate FirstLe(x: (int, int), y: (int, int)) {
    x.0 <= y.0
  }

  /** With a repeated key, a slice and a reordering of it can be reported as different. */
  lemma RepeatedKeyMisreported()
    ensures exists ra, rb, a, b ::
      SortOf(ra, a, FirstLe) && SortOf(rb, b, FirstLe) && multiset(a) == multiset(b) && ra != rb
  {
    var a, b := [(1, 1), (1, 2)], [(1, 2), (1, 1)];
    assert SortOf(a, a, FirstLe) && SortOf(b, b, FirstLe) && multiset(a) == multiset(b) && a[0] != b[0];
  }

  /******* Strings *******/

  predicate StringLe(s: string, t: string) {
    s == [] || (t != [] && (s[0] < t[0] || (s[0] == t[0] && StringLe(s[1..], t[1..]))))
  }

  lemma {:induction false} StringTotal(s: string, t: string)
    ensures StringLe(s, t) || StringLe(t, s)
    ensures StringLe(s, t) && StringLe(t, s) ==> s == t
  {
    if s == [] || t == [] {
    } else {
      StringTotal(s[1..], t[1..]);
      assert s == [s[0]] + s[1..] && t == [t[0]] + t[1..];
    }
  }

  lemma {:induction false} StringTransitive(s: string, t: string, u: string)
    requires StringLe(s, t) && StringLe(t, u)
    ensures StringLe(s, u)
  {
    if s == [] || s[0] < t[0] || t[0] < u[0] {
    } else {
      StringTransitive(s[1..], t[1..], u[1..]);
    }
  }

  /** String lists, repeats and all: no difference means exactly the same strings, equally often. */
  lemma StringsExactly(a: seq<string>, b: seq<string>, ra: seq<string>, rb: seq<string>)
    requires SortOf(ra, a, StringLe) && SortOf(rb, b, StringLe)
    ensures ra == rb <==> multiset(a) == multiset(b)
  {
    forall s, t ensures (StringLe(s, t) || StringLe(t, s)) && (StringLe(s, t) && StringLe(t, s) ==> s == t) { StringTotal(s, t); }
    forall s, t, u | StringLe(s, t) && StringLe(t, u) ensures StringLe(s, u) { StringTransitive(s, t, u); }
    hide StringLe;
    DistinctKeysExactly(a, b, ra, rb, StringLe);
  }
}
