/** Strict total orders, the lexicographic order on sequences, and sorting. */
module Orders {

  ghost predicate StrictTotal<T(!new)>(lt: (T, T) -> bool) {
    && (forall x :: !lt(x, x))
    && (forall x, y, z {:trigger lt(x, y), lt(y, z)} :: lt(x, y) && lt(y, z) ==> lt(x, z))
    && (forall x, y {:trigger lt(x, y)} {:trigger lt(y, x)} :: x != y ==> lt(x, y) || lt(y, x))
  }

  /** Rust's order on `Vec<T>` and, for characters, on `String`. */
  predicate LexLess<T(==)>(lt: (T, T) -> bool, a: seq<T>, b: seq<T>) {
    if b == [] then false
    else if a == [] then true
    else lt(a[0], b[0]) || (a[0] == b[0] && LexLess(lt, a[1..], b[1..]))
  }

  predicate CharLess(a: char, b: char) {
    a < b
  }

  predicate StringLess(a: string, b: string) {
    LexLess(CharLess, a, b)
  }

  predicate NamesLess(a: seq<string>, b: seq<string>) {
    LexLess(StringLess, a, b)
  }

  lemma {:induction false} LexIrreflexive<T(!new)>(lt: (T, T) -> bool, a: seq<T>)
    requires StrictTotal(lt)
    ensures !LexLess(lt, a, a)
  {
    if a != [] { LexIrreflexive(lt, a[1..]); }
  }

  lemma {:induction false} LexTransitive<T(!new)>(lt: (T, T) -> bool, a: seq<T>, b: seq<T>, c: seq<T>)
    requires StrictTotal(lt) && LexLess(lt, a, b) && LexLess(lt, b, c)
    ensures LexLess(lt, a, c)
  {
    if a != [] && a[0] == b[0] && b[0] == c[0] { LexTransitive(lt, a[1..], b[1..], c[1..]); }
  }

  lemma {:induction false} LexTotal<T(!new)>(lt: (T, T) -> bool, a: seq<T>, b: seq<T>)
    requires StrictTotal(lt) && a != b
    ensures LexLess(lt, a, b) || LexLess(lt, b, a)
  {
    if a != [] && b != [] && a[0] == b[0] {
      assert a[1..] != b[1..] by { assert a == [a[0]] + a[1..] && b == [b[0]] + b[1..]; }
      LexTotal(lt, a[1..], b[1..]);
    }
  }

  /** Up to position `k` the two agree; there `a` ends, or has the smaller element. */
  predicate ComesFirstAt<T(==)>(lt: (T, T) -> bool, a: seq<T>, b: seq<T>, k: nat) {
    k <= |a| && k < |b| && a[..k] == b[..k] && (k < |a| ==> lt(a[k], b[k]))
  }

  lemma {:induction false} LexLessIff<T(!new)>(lt: (T, T) -> bool, a: seq<T>, b: seq<T>)
    ensures LexLess(lt, a, b) <==> exists k: nat :: ComesFirstAt(lt, a, b, k)
  {
    if a == [] || b == [] || (a[0] != b[0] && !lt(a[0], b[0])) {
      assert ComesFirstAt(lt, a, b, 0) <==> LexLess(lt, a, b);
      assert forall k: nat :: 0 < k && ComesFirstAt(lt, a, b, k) ==> a[0] == a[..k][0] && b[0] == b[..k][0];
    } else if lt(a[0], b[0]) {
      assert ComesFirstAt(lt, a, b, 0);
    } else {
      LexLessIff(lt, a[1..], b[1..]);
      forall k: nat
        ensures ComesFirstAt(lt, a[1..], b[1..], k) <==> ComesFirstAt(lt, a, b, k + 1)
      {
        if k < |a| && k < |b| {
          assert a[..k + 1] == [a[0]] + a[1..][..k] && b[..k + 1] == [b[0]] + b[1..][..k];
        }
      }
      if k: nat :| ComesFirstAt(lt, a, b, k) {
        assert k > 0;
        assert ComesFirstAt(lt, a[1..], b[1..], k - 1);
      }
    }
  }

  /** Ascending by code point: a proper prefix comes first, otherwise the first difference decides. */
  lemma StringLessIff(a: string, b: string)
    ensures StringLess(a, b) <==>
      exists k: nat :: k <= |a| && k < |b| && a[..k] == b[..k] && (k < |a| ==> a[k] as int < b[k] as int)
  {
    LexLessIff(CharLess, a, b);
    forall k: nat
      ensures ComesFirstAt(CharLess, a, b, k) <==>
        k <= |a| && k < |b| && a[..k] == b[..k] && (k < |a| ==> a[k] as int < b[k] as int)
    {
    }
  }

  /** Lists of names the same way, by their first different name. */
  lemma NamesLessIff(a: seq<string>, b: seq<string>)
    ensures NamesLess(a, b) <==>
      exists k: nat :: k <= |a| && k < |b| && a[..k] == b[..k] && (k < |a| ==> StringLess(a[k], b[k]))
  {
    LexLessIff(StringLess, a, b);
    forall k: nat
      ensures ComesFirstAt(StringLess, a, b, k) <==>
        k <= |a| && k < |b| && a[..k] == b[..k] && (k < |a| ==> StringLess(a[k], b[k]))
    {
    }
  }

  lemma StringOrder()
    ensures StrictTotal(StringLess)
  {
    forall a { LexIrreflexive(CharLess, a); }
    forall a, b, c | StringLess(a, b) && StringLess(b, c)
      ensures StringLess(a, c)
    {
      LexTransitive(CharLess, a, b, c);
    }
    forall a, b | a != b
      ensures StringLess(a, b) || StringLess(b, a)
    {
      LexTotal(CharLess, a, b);
    }
  }

  lemma NamesOrder()
    ensures StrictTotal(NamesLess)
  {
    StringOrder();
    forall a { LexIrreflexive(StringLess, a); }
    forall a, b, c | NamesLess(a, b) && NamesLess(b, c)
      ensures NamesLess(a, c)
    {
      LexTransitive(StringLess, a, b, c);
    }
    forall a, b | a != b
      ensures NamesLess(a, b) || NamesLess(b, a)
    {
      LexTotal(StringLess, a, b);
    }
  }

  ghost predicate StrictlySorted<T(!new)>(lt: (T, T) -> bool, s: seq<T>) {
    forall i, j :: 0 <= i < j < |s| ==> lt(s[i], s[j])
  }

  function Insert<T(==)>(lt: (T, T) -> bool, x: T, s: seq<T>): seq<T> {
    if s == [] then [x]
    else if lt(x, s[0]) then [x] + s
    else [s[0]] + Insert(lt, x, s[1..])
  }

  /** What `Vec::sort` leaves in the vector. */
  function Sort<T(==)>(lt: (T, T) -> bool, s: seq<T>): seq<T> {
    if s == [] then [] else Insert(lt, s[0], Sort(lt, s[1..]))
  }

  lemma {:induction false} InsertMultiset<T>(lt: (T, T) -> bool, x: T, s: seq<T>)
    ensures multiset(Insert(lt, x, s)) == multiset(s) + multiset{x}
  {
    if s != [] && !lt(x, s[0]) {
      InsertMultiset(lt, x, s[1..]);
      assert s == [s[0]] + s[1..];
    } else if s != [] {
      assert multiset([x] + s) == multiset{x} + multiset(s);
    }
  }

  lemma {:induction false} SortMultiset<T>(lt: (T, T) -> bool, s: seq<T>)
    ensures multiset(Sort(lt, s)) == multiset(s)
  {
    if s != [] {
      SortMultiset(lt, s[1..]);
      InsertMultiset(lt, s[0], Sort(lt, s[1..]));
      assert s == [s[0]] + s[1..];
    }
  }

  lemma {:induction false} InsertSorted<T(!new)>(lt: (T, T) -> bool, x: T, s: seq<T>)
    requires StrictTotal(lt) && StrictlySorted(lt, s) && x !in s
    ensures StrictlySorted(lt, Insert(lt, x, s))
  {
    if s != [] && !lt(x, s[0]) {
      var rest := Insert(lt, x, s[1..]);
      InsertSorted(lt, x, s[1..]);
      InsertMultiset(lt, x, s[1..]);
      forall y | y in rest
        ensures lt(s[0], y)
      {
        assert y in multiset(rest);
        assert y == x || y in s[1..];
      }
    }
  }

  /** Sorting a list without repetition gives a strictly ascending list of the same members. */
  lemma {:induction false} SortSorted<T(!new)>(lt: (T, T) -> bool, s: seq<T>)
    requires StrictTotal(lt) && forall i, j :: 0 <= i < j < |s| ==> s[i] != s[j]
    ensures StrictlySorted(lt, Sort(lt, s))
  {
    if s != [] {
      SortSorted(lt, s[1..]);
      SortMembers(lt, s[1..]);
      InsertSorted(lt, s[0], Sort(lt, s[1..]));
    }
  }

  lemma SortMembers<T(!new)>(lt: (T, T) -> bool, s: seq<T>)
    ensures |Sort(lt, s)| == |s| && forall x :: x in Sort(lt, s) <==> x in s
  {
    SortMultiset(lt, s);
    assert |multiset(Sort(lt, s))| == |multiset(s)|;
    forall x
      ensures x in Sort(lt, s) <==> x in s
    {
      assert x in Sort(lt, s) <==> x in multiset(Sort(lt, s));
    }
  }

  /** A strictly ascending list is determined by its members. */
  lemma {:induction false} SortedUnique<T(!new)>(lt: (T, T) -> bool, a: seq<T>, b: seq<T>)
    requires StrictTotal(lt) && StrictlySorted(lt, a) && StrictlySorted(lt, b)
    requires forall x :: x in a <==> x in b
    ensures a == b
  {
    assert a != [] ==> a[0] in a;
    assert b != [] ==> b[0] in b;
    if a != [] {
      assert forall k :: 0 < k < |a| ==> lt(a[0], a[k]);
      assert forall k :: 0 < k < |b| ==> lt(b[0], b[k]);
      var i :| 0 <= i < |b| && b[i] == a[0];
      var j :| 0 <= j < |a| && a[j] == b[0];
      forall x
        ensures x in a[1..] <==> x in b[1..]
      {
        assert x in a <==> x == a[0] || x in a[1..];
        assert x in b <==> x == b[0] || x in b[1..];
        assert a[0] !in a[1..] && b[0] !in b[1..];
      }
      SortedUnique(lt, a[1..], b[1..]);
      assert a == [a[0]] + a[1..] && b == [b[0]] + b[1..];
    }
  }
}
