/** Optional values and the source's error returns. */
module Wrappers {
  datatype Option<+T> = None | Some(value: T)

  datatype Result<+T, +E> = Success(value: T) | Failure(error: E) {
    predicate IsFailure() {
      Failure?
    }

    function PropagateFailure<U>(): Result<U, E>
      requires Failure?
    {
      Failure(error)
    }

    function Extract(): T
      requires Success?
    {
      value
    }
  }
}

/** Identities. A UUID is a number and the nil UUID is zero. */
module Ids {
  import opened Wrappers

  type Id = nat

  const NIL: Id := 0

  /** What is assumed of a name-based identity (UUID version 5, RFC 9562 section 5.5). */
  ghost predicate Renaming(f: Id -> Id) {
    && (forall x :: f(x) != NIL)
    && (forall x, y :: f(x) == f(y) ==> x == y)
  }

  function MapOption(f: Id -> Id, x: Option<Id>): Option<Id> {
    match x
    case None => None
    case Some(id) => Some(f(id))
  }
}

/** Rows of a table, looked up by their identity. */
module Rows {
  import opened Ids

  ghost predicate NoDup<T>(s: seq<T>) {
    forall i, j :: 0 <= i < j < |s| ==> s[i] != s[j]
  }

  /** The identity column of a table. */
  function Keys<T>(s: seq<T>, key: T -> Id): (r: seq<Id>)
    ensures |r| == |s|
    ensures forall i :: 0 <= i < |s| ==> r[i] == key(s[i])
  {
    seq(|s|, i requires 0 <= i < |s| => key(s[i]))
  }

  /** The lookup table a loop builds by storing every row under its identity. */
  function Index<T>(s: seq<T>, key: T -> Id): map<Id, T> {
    if s == [] then map[] else Index(s[..|s| - 1], key)[key(s[|s| - 1]) := s[|s| - 1]]
  }

  lemma IndexAppend<T>(s: seq<T>, x: T, key: T -> Id)
    ensures Index(s + [x], key) == Index(s, key)[key(x) := x]
  {
    assert (s + [x])[..|s|] == s;
  }

  lemma {:induction false} IndexHolds<T>(s: seq<T>, key: T -> Id)
    ensures forall k :: k in Index(s, key) ==> Index(s, key)[k] in s && key(Index(s, key)[k]) == k
    ensures forall x :: x in s ==> key(x) in Index(s, key)
    ensures NoDup(Keys(s, key)) ==> forall x :: x in s ==> Index(s, key)[key(x)] == x
  {
    if s != [] {
      var front, last := s[..|s| - 1], s[|s| - 1];
      IndexHolds(front, key);
      assert forall x :: x in s ==> x in front || x == last;
      if NoDup(Keys(s, key)) {
        forall i, j | 0 <= i < j < |front| ensures Keys(front, key)[i] != Keys(front, key)[j] {
          assert Keys(s, key)[i] != Keys(s, key)[j];
        }
        forall x | x in s ensures Index(s, key)[key(x)] == x {
          var i :| 0 <= i < |s| && s[i] == x;
          assert i < |s| - 1 ==> Keys(s, key)[i] != Keys(s, key)[|s| - 1];
          assert i < |s| - 1 ==> x == front[i];
        }
      }
    }
  }

  /** Replaces the row that has the same identity as `x`. */
  function Replace<T>(s: seq<T>, key: T -> Id, x: T): (r: seq<T>)
    ensures |r| == |s|
    ensures forall i :: 0 <= i < |s| ==> r[i] == if key(s[i]) == key(x) then x else s[i]
  {
    seq(|s|, i requires 0 <= i < |s| => if key(s[i]) == key(x) then x else s[i])
  }

  lemma {:induction false} ReplaceIndex<T>(s: seq<T>, key: T -> Id, x: T)
    requires key(x) in Index(s, key)
    ensures Keys(Replace(s, key, x), key) == Keys(s, key)
    ensures Index(Replace(s, key, x), key) == Index(s, key)[key(x) := x]
  {
    var front, last := s[..|s| - 1], s[|s| - 1];
    assert Replace(s, key, x)[..|s| - 1] == Replace(front, key, x);
    if key(x) in Index(front, key) {
      ReplaceIndex(front, key, x);
    } else {
      IndexHolds(front, key);
      assert Replace(front, key, x) == front;
    }
  }

  lemma ReplaceTwice<T>(s: seq<T>, key: T -> Id, x: T, y: T)
    requires key(x) == key(y)
    ensures Replace(Replace(s, key, x), key, y) == Replace(s, key, y)
  {
  }

  // Distinctness as a property of the multiset of identities.

  lemma {:induction false} NoDupIsMultiset<T>(s: seq<T>)
    ensures NoDup(s) <==> forall x :: multiset(s)[x] <= 1
  {
    if s != [] {
      var front, last := s[..|s| - 1], s[|s| - 1];
      NoDupIsMultiset(front);
      assert s == front + [last];
      assert multiset(s) == multiset(front) + multiset{last};
      if NoDup(s) {
        assert last !in front;
        assert last !in multiset(front);
        assert NoDup(front);
      }
      if forall x :: multiset(s)[x] <= 1 {
        assert forall x :: multiset(front)[x] <= multiset(s)[x];
        assert last !in front by {
          assert multiset(s)[last] <= 1;
          assert multiset(front)[last] == 0;
        }
      }
    }
  }

  /** Adding identities that are new and distinct keeps all identities distinct. */
  lemma NoDupExtended<T>(s: seq<T>, added: seq<T>, t: seq<T>)
    requires NoDup(s) && NoDup(added)
    requires forall x :: x in added ==> x !in s
    requires multiset(t) == multiset(s) + multiset(added)
    ensures NoDup(t)
    ensures forall x :: x in t <==> x in s || x in added
  {
    NoDupIsMultiset(s);
    NoDupIsMultiset(added);
    NoDupIsMultiset(t);
    forall x ensures multiset(t)[x] <= 1 {
      assert x in added ==> x !in multiset(s);
      assert x !in added ==> x !in multiset(added);
    }
    forall x ensures x in t <==> x in s || x in added {
      assert x in t <==> x in multiset(t);
    }
  }

  lemma NoDupParts<T>(a: seq<T>, b: seq<T>)
    ensures NoDup(a + b) <==> NoDup(a) && NoDup(b) && forall x :: x in a ==> x !in b
  {
    if NoDup(a) && NoDup(b) && forall x :: x in a ==> x !in b {
      forall i, j | 0 <= i < j < |a + b| ensures (a + b)[i] != (a + b)[j] {
        assert i < |a| ==> (a + b)[i] in a;
        assert j >= |a| ==> (a + b)[j] == b[j - |a|];
      }
    }
    if NoDup(a + b) {
      forall i, j | 0 <= i < j < |a| ensures a[i] != a[j] {
        assert (a + b)[i] != (a + b)[j];
      }
      forall i, j | 0 <= i < j < |b| ensures b[i] != b[j] {
        assert (a + b)[|a| + i] != (a + b)[|a| + j];
      }
      forall x | x in a ensures x !in b {
        var i :| 0 <= i < |a| && a[i] == x;
        forall j | 0 <= j < |b| ensures b[j] != x {
          assert (a + b)[i] != (a + b)[|a| + j];
        }
      }
    }
  }

  function Elements<T>(s: seq<T>): set<T> {
    set x | x in s
  }

  /** The identities `ks` can join those already taken: none is nil, taken, or repeated. */
  ghost predicate Fresh(taken: set<Id>, ks: seq<Id>) {
    NIL !in ks && NoDup(ks) && forall k :: k in ks ==> k !in taken
  }

  lemma FreshAppend(taken: set<Id>, ks: seq<Id>, k: Id)
    ensures Fresh(taken, ks + [k]) <==> Fresh(taken, ks) && k != NIL && k !in taken && k !in ks
  {
    NoDupParts(ks, [k]);
    assert k in ks + [k];
  }

  lemma FreshJoin(ks: seq<Id>, js: seq<Id>)
    ensures Fresh({}, ks + js) <==> Fresh({}, ks) && Fresh(Elements(ks), js)
    ensures Elements(ks + js) == Elements(ks) + Elements(js)
  {
    NoDupParts(ks, js);
  }

  /** One more row of a table read from the front. */
  lemma NextRow<T>(s: seq<T>, n: nat, key: T -> Id, taken: set<Id>)
    requires n < |s|
    ensures Keys(s[..n + 1], key) == Keys(s[..n], key) + [key(s[n])]
    ensures Elements(Keys(s[..n + 1], key)) == Elements(Keys(s[..n], key)) + {key(s[n])}
    ensures Index(s[..n + 1], key) == Index(s[..n], key)[key(s[n]) := s[n]]
    ensures Fresh(taken, Keys(s[..n + 1], key)) <==>
              Fresh(taken, Keys(s[..n], key)) && key(s[n]) != NIL && key(s[n]) !in taken + Elements(Keys(s[..n], key))
    ensures Fresh(taken, Keys(s, key)) ==> Fresh(taken, Keys(s[..n + 1], key))
    ensures forall x :: x in s[..n + 1] <==> x in s[..n] || x == s[n]
  {
    assert s[..n + 1] == s[..n] + [s[n]];
    IndexAppend(s[..n], s[n], key);
    FreshAppend(taken, Keys(s[..n], key), key(s[n]));
    assert Keys(s[..n + 1], key) == Keys(s, key)[..n + 1];
  }

  // Tables that are a reordering of each other.

  ghost predicate Reordered<T>(s: seq<T>, t: seq<T>) {
    multiset(s) == multiset(t)
  }

  lemma ReorderedMembers<T>(s: seq<T>, t: seq<T>)
    requires Reordered(s, t)
    ensures forall x :: x in s <==> x in t
    ensures |s| == |t|
  {
    assert forall x :: x in s <==> x in multiset(s);
    assert forall x :: x in t <==> x in multiset(t);
    assert |multiset(s)| == |s| && |multiset(t)| == |t|;
  }

  lemma WithoutRow<T>(s: seq<T>, i: nat)
    requires i < |s|
    ensures multiset(s[..i] + s[i + 1..]) == multiset(s) - multiset{s[i]}
  {
    var front, back := s[..i], s[i + 1..];
    assert s == front + ([s[i]] + back);
    JoinedMultiset(front, [s[i]] + back);
    JoinedMultiset([s[i]], back);
    JoinedMultiset(front, back);
  }

  lemma JoinedMultiset<T>(s: seq<T>, t: seq<T>)
    ensures multiset(s + t) == multiset(s) + multiset(t)
  {
  }

  /** Takes the last row of `s` out of `t`. */
  lemma TakeOut<T>(s: seq<T>, t: seq<T>) returns (i: nat)
    requires Reordered(s, t) && s != []
    ensures i < |t| && t[i] == s[|s| - 1]
    ensures Reordered(s[..|s| - 1], t[..i] + t[i + 1..])
  {
    ReorderedMembers(s, t);
    var x := s[|s| - 1];
    assert x in s;
    i :| 0 <= i < |t| && t[i] == x;
    WithoutRow(s, |s| - 1);
    WithoutRow(t, i);
    assert s[..|s| - 1] + s[|s|..] == s[..|s| - 1];
  }

  lemma {:induction false} KeysReordered<T>(s: seq<T>, t: seq<T>, key: T -> Id)
    requires Reordered(s, t)
    ensures Reordered(Keys(s, key), Keys(t, key))
  {
    if s == [] {
      ReorderedMembers(s, t);
    } else {
      var i := TakeOut(s, t);
      var front, x := s[..|s| - 1], s[|s| - 1];
      var rest := t[..i] + t[i + 1..];
      KeysReordered(front, rest, key);
      assert Keys(s, key) == Keys(front, key) + [key(x)];
      assert Keys(t, key) == Keys(t[..i], key) + [key(x)] + Keys(t[i + 1..], key);
      assert Keys(rest, key) == Keys(t[..i], key) + Keys(t[i + 1..], key);
    }
  }

  lemma IndexReordered<T>(s: seq<T>, t: seq<T>, key: T -> Id)
    requires Reordered(s, t) && NoDup(Keys(s, key))
    ensures NoDup(Keys(t, key)) && Index(s, key) == Index(t, key)
  {
    KeysReordered(s, t, key);
    NoDupIsMultiset(Keys(s, key));
    NoDupIsMultiset(Keys(t, key));
    ReorderedMembers(s, t);
    IndexHolds(s, key);
    IndexHolds(t, key);
  }

  // A table with every row rewritten.

  function Each<T>(s: seq<T>, g: T -> T): (r: seq<T>)
    ensures |r| == |s| && forall i :: 0 <= i < |s| ==> r[i] == g(s[i])
  {
    seq(|s|, i requires 0 <= i < |s| => g(s[i]))
  }

  lemma KeysEach<T>(s: seq<T>, key: T -> Id, f: Id -> Id, g: T -> T)
    requires forall x | x in s :: key(g(x)) == f(key(x))
    ensures Keys(Each(s, g), key) == Each(Keys(s, key), f)
  {
  }

  lemma EachMembers<T>(s: seq<T>, g: T -> T)
    ensures forall y | y in Each(s, g) :: exists x | x in s :: y == g(x)
    ensures forall x | x in s :: g(x) in Each(s, g)
  {
    forall y | y in Each(s, g) ensures exists x | x in s :: y == g(x) {
      var i :| 0 <= i < |s| && Each(s, g)[i] == y;
      assert s[i] in s;
    }
    forall x | x in s ensures g(x) in Each(s, g) {
      var i :| 0 <= i < |s| && s[i] == x;
      assert Each(s, g)[i] == g(x);
    }
  }

  /** A lookup table with every identity and every row renamed, and nothing else. */
  ghost predicate Renames<T(!new)>(f: Id -> Id, g: T -> T, a: map<Id, T>, b: map<Id, T>) {
    && (forall k | k in a :: f(k) in b && b[f(k)] == g(a[k]))
    && (forall j | j in b :: exists k | k in a :: f(k) == j)
  }

  lemma {:induction false} IndexRenamed<T(!new)>(s: seq<T>, key: T -> Id, f: Id -> Id, g: T -> T)
    requires Renaming(f) && forall x | x in s :: key(g(x)) == f(key(x))
    ensures Renames(f, g, Index(s, key), Index(Each(s, g), key))
  {
    if s != [] {
      var front, last := s[..|s| - 1], s[|s| - 1];
      IndexRenamed(front, key, f, g);
      assert Each(s, g) == Each(front, g) + [g(last)];
      IndexAppend(Each(front, g), g(last), key);
    }
  }

  // Insertion sort stands for the library's sort: the order of equal rows is never relied on.

  ghost predicate TotalOrder<T(!new)>(le: (T, T) -> bool) {
    && (forall a, b :: le(a, b) || le(b, a))
    && (forall a, b, c :: le(a, b) && le(b, c) ==> le(a, c))
  }

  ghost predicate SortedBy<T>(s: seq<T>, le: (T, T) -> bool) {
    forall i, j :: 0 <= i < j < |s| ==> le(s[i], s[j])
  }

  function Insert<T>(s: seq<T>, x: T, le: (T, T) -> bool): (r: seq<T>)
    ensures multiset(r) == multiset(s) + multiset{x}
  {
    if s == [] then [x]
    else if le(x, s[0]) then [x] + s
    else
      assert s == [s[0]] + s[1..];
      [s[0]] + Insert(s[1..], x, le)
  }

  function Sort<T>(s: seq<T>, le: (T, T) -> bool): (r: seq<T>)
    ensures Reordered(s, r)
  {
    if s == [] then [] else
      assert s == [s[0]] + s[1..];
      Insert(Sort(s[1..], le), s[0], le)
  }

  lemma {:induction false} InsertSorts<T(!new)>(s: seq<T>, x: T, le: (T, T) -> bool)
    requires TotalOrder(le) && SortedBy(s, le)
    ensures SortedBy(Insert(s, x, le), le)
  {
    if s != [] && !le(x, s[0]) {
      var tail := Insert(s[1..], x, le);
      InsertSorts(s[1..], x, le);
      forall y | y in tail ensures le(s[0], y) {
        assert y in multiset(tail);
        assert y in s[1..] || y == x;
      }
    }
  }

  lemma {:induction false} SortSorts<T(!new)>(s: seq<T>, le: (T, T) -> bool)
    requires TotalOrder(le)
    ensures SortedBy(Sort(s, le), le)
  {
    if s != [] {
      SortSorts(s[1..], le);
      InsertSorts(Sort(s[1..], le), s[0], le);
    }
  }

  lemma DropSameLast<T>(s: seq<T>, t: seq<T>)
    requires Reordered(s, t) && |s| == |t| > 0 && s[|s| - 1] == t[|t| - 1]
    ensures Reordered(s[..|s| - 1], t[..|t| - 1])
  {
    WithoutRow(s, |s| - 1);
    WithoutRow(t, |t| - 1);
    assert s[..|s| - 1] + s[|s|..] == s[..|s| - 1];
    assert t[..|t| - 1] + t[|t|..] == t[..|t| - 1];
  }

  /** Two sorted reorderings of the same rows are the same sequence, when no two rows tie. */
  lemma {:induction false} SortedUnique<T>(s: seq<T>, t: seq<T>, le: (T, T) -> bool)
    requires Reordered(s, t) && SortedBy(s, le) && SortedBy(t, le)
    requires forall i, j :: 0 <= i < |s| && 0 <= j < |s| && le(s[i], s[j]) && le(s[j], s[i]) ==> s[i] == s[j]
    ensures s == t
  {
    ReorderedMembers(s, t);
    if s != [] {
      var n := |s| - 1;
      assert s[n] == t[n] by {
        assert t[n] in s && s[n] in t;
        var i :| 0 <= i < |s| && s[i] == t[n];
        var j :| 0 <= j < |t| && t[j] == s[n];
        assert i < n ==> le(s[i], s[n]);
        assert j < n ==> le(t[j], t[n]);
      }
      DropSameLast(s, t);
      SortedUnique(s[..n], t[..n], le);
    }
  }
}
