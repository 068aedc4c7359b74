/** The collection operations aws-ssh borrows from libraries: sorting (Go's
    `sort` package and go-linq's `OrderBy(...).ThenBy(...)`) and grouping
    (go-linq's `GroupBy`). They are specified here once, generically. */
module Sequences {
  import opened Strings

  /** A sort key: a string compared with Go's `<`, then an integer that breaks
      ties (a launch time; 0 where only the string matters). */
  datatype Key = Key(text: string, rank: int)

  predicate KeyLeq(a: Key, b: Key) {
    Less(a.text, b.text) || (a.text == b.text && a.rank <= b.rank)
  }

  lemma KeyLeqTotal(a: Key, b: Key)
    ensures KeyLeq(a, b) || KeyLeq(b, a)
  {
    if a.text != b.text {
      LessTotal(a.text, b.text);
    }
  }

  lemma KeyLeqTransitive(a: Key, b: Key, c: Key)
    requires KeyLeq(a, b) && KeyLeq(b, c)
    ensures KeyLeq(a, c)
  {
    if Less(a.text, b.text) && Less(b.text, c.text) {
      LessTransitive(a.text, b.text, c.text);
    }
  }

  predicate SortedBy<T>(xs: seq<T>, key: T -> Key) {
    forall i, j :: 0 <= i < j < |xs| ==> KeyLeq(key(xs[i]), key(xs[j]))
  }

  /** Inserts `x` before the first element that is not smaller than it, so
      that `x` stays ahead of the elements it ties with. */
  function Insert<T>(x: T, xs: seq<T>, key: T -> Key): (r: seq<T>)
    ensures multiset(r) == multiset(xs) + multiset{x}
  {
    if xs == [] then [x]
    else if KeyLeq(key(x), key(xs[0])) then [x] + xs
    else
      assert xs == [xs[0]] + xs[1..];
      [xs[0]] + Insert(x, xs[1..], key)
  }

  /** Every key of `xs` is at least `k`. */
  predicate AllAbove<T>(k: Key, xs: seq<T>, key: T -> Key) {
    forall i :: 0 <= i < |xs| ==> KeyLeq(k, key(xs[i]))
  }

  lemma {:induction false} InsertAbove<T>(k: Key, x: T, xs: seq<T>, key: T -> Key)
    requires AllAbove(k, xs, key) && KeyLeq(k, key(x))
    ensures AllAbove(k, Insert(x, xs, key), key)
  {
    if xs == [] {
    } else if KeyLeq(key(x), key(xs[0])) {
      var r := [x] + xs;
      forall i | 0 <= i < |r| ensures KeyLeq(k, key(r[i])) {
        if i > 0 {
          assert r[i] == xs[i - 1];
        }
      }
    } else {
      var t := xs[1..];
      forall i | 0 <= i < |t| ensures KeyLeq(k, key(t[i])) {
        assert t[i] == xs[i + 1];
      }
      InsertAbove(k, x, t, key);
      var r := [xs[0]] + Insert(x, t, key);
      forall i | 0 <= i < |r| ensures KeyLeq(k, key(r[i])) {
        if i > 0 {
          assert r[i] == Insert(x, t, key)[i - 1];
        }
      }
    }
  }

  lemma ConsSorted<T>(h: T, t: seq<T>, key: T -> Key)
    requires SortedBy(t, key) && AllAbove(key(h), t, key)
    ensures SortedBy([h] + t, key)
  {
    var r := [h] + t;
    forall i, j | 0 <= i < j < |r| ensures KeyLeq(key(r[i]), key(r[j])) {
      assert r[j] == t[j - 1];
      if i > 0 {
        assert r[i] == t[i - 1];
      }
    }
  }

  lemma {:induction false} InsertSorted<T>(x: T, xs: seq<T>, key: T -> Key)
    requires SortedBy(xs, key)
    ensures SortedBy(Insert(x, xs, key), key)
  {
    if xs == [] {
    } else if KeyLeq(key(x), key(xs[0])) {
      forall i | 0 <= i < |xs| ensures KeyLeq(key(x), key(xs[i])) {
        KeyLeqTransitive(key(x), key(xs[0]), key(xs[i]));
      }
      ConsSorted(x, xs, key);
    } else {
      var t := xs[1..];
      KeyLeqTotal(key(x), key(xs[0]));
      InsertSorted(x, t, key);
      assert AllAbove(key(xs[0]), t, key) by {
        forall i | 0 <= i < |t| ensures KeyLeq(key(xs[0]), key(t[i])) {
          assert t[i] == xs[i + 1];
        }
      }
      InsertAbove(key(xs[0]), x, t, key);
      ConsSorted(xs[0], Insert(x, t, key), key);
    }
  }

  /** A stable insertion sort by `key`. Where the source calls an unstable
      library sort, the relative order of equal keys is the model's choice. */
  function SortBy<T>(xs: seq<T>, key: T -> Key): (r: seq<T>)
    ensures multiset(r) == multiset(xs)
  {
    if xs == [] then []
    else
      assert xs == [xs[0]] + xs[1..];
      Insert(xs[0], SortBy(xs[1..], key), key)
  }

  lemma {:induction false} SortBySorted<T>(xs: seq<T>, key: T -> Key)
    ensures SortedBy(SortBy(xs, key), key)
  {
    if xs != [] {
      SortBySorted(xs[1..], key);
      InsertSorted(xs[0], SortBy(xs[1..], key), key);
    }
  }

  /** The elements of `xs` whose key is `k`, in their order in `xs`. */
  function Ties<T>(xs: seq<T>, key: T -> Key, k: Key): seq<T> {
    if xs == [] then [] else (if key(xs[0]) == k then [xs[0]] else []) + Ties(xs[1..], key, k)
  }

  /** Insert passes only elements with a smaller key, so among the elements
      of one key `x` comes first. */
  lemma {:induction false} InsertTies<T>(x: T, ys: seq<T>, key: T -> Key, k: Key)
    ensures Ties(Insert(x, ys, key), key, k) == (if key(x) == k then [x] else []) + Ties(ys, key, k)
  {
    if ys == [] {
    } else if KeyLeq(key(x), key(ys[0])) {
      TiesCons(x, ys, key, k);
    } else {
      var y, rest := ys[0], ys[1..];
      var inserted := Insert(x, rest, key);
      assert Insert(x, ys, key) == [y] + inserted;
      assert key(y) != key(x);
      InsertTies(x, rest, key, k);
      TiesCons(y, inserted, key, k);
      assert ys == [y] + rest;
      TiesCons(y, rest, key, k);
      SwapEmpty(if key(x) == k then [x] else [], if key(y) == k then [y] else [], Ties(rest, key, k));
    }
  }

  /** Two parts of which one is empty can be put in either order. */
  lemma SwapEmpty<T>(a: seq<T>, b: seq<T>, t: seq<T>)
    requires a == [] || b == []
    ensures b + (a + t) == a + (b + t)
  {
    if a == [] {
      assert a + t == t;
      assert a + (b + t) == b + t;
    } else {
      assert b + (a + t) == a + t;
      assert b + t == t;
    }
  }

  lemma TiesCons<T>(x: T, ys: seq<T>, key: T -> Key, k: Key)
    ensures Ties([x] + ys, key, k) == (if key(x) == k then [x] else []) + Ties(ys, key, k)
  {
    assert ([x] + ys)[1..] == ys;
  }

  /** The sort is stable: the elements of each key keep their input order. */
  lemma {:induction false} SortByStable<T>(xs: seq<T>, key: T -> Key, k: Key)
    ensures Ties(SortBy(xs, key), key, k) == Ties(xs, key, k)
  {
    if xs != [] {
      SortByStable(xs[1..], key, k);
      InsertTies(xs[0], SortBy(xs[1..], key), key, k);
    }
  }

  /** Applying `f` to two permutations of each other gives two permutations
      of each other. */
  lemma {:induction false} MapPermutation<T, U>(a: seq<T>, b: seq<T>, f: T -> U)
    requires multiset(a) == multiset(b)
    ensures multiset(Map(a, f)) == multiset(Map(b, f))
    decreases |a|
  {
    if a != [] {
      var k := IndexOf(b, a[0]);
      var rest := b[..k] + b[k + 1..];
      RemoveAt(b, k);
      RemoveFirst(a);
      MapPermutation(a[1..], rest, f);
      MapRemoveFirst(a, f);
      MapRemoveAt(b, k, f);
    }
  }

  lemma IndexOf<T>(b: seq<T>, x: T) returns (k: nat)
    requires x in multiset(b)
    ensures k < |b| && b[k] == x
  {
    k :| 0 <= k < |b| && b[k] == x;
  }

  lemma RemoveFirst<T>(a: seq<T>)
    requires a != []
    ensures multiset(a[1..]) == multiset(a) - multiset{a[0]}
  {
    assert a == [a[0]] + a[1..];
  }

  lemma MapRemoveFirst<T, U>(a: seq<T>, f: T -> U)
    requires a != []
    ensures multiset(Map(a, f)) == multiset(Map(a[1..], f)) + multiset{f(a[0])}
  {
    assert Map(a, f) == [f(a[0])] + Map(a[1..], f);
  }

  /** The concatenation of `f` of every element, in order. */
  function FlatMap<T, U>(xs: seq<T>, f: T -> seq<U>): seq<U> {
    if xs == [] then [] else FlatMap(xs[..|xs| - 1], f) + f(xs[|xs| - 1])
  }

  lemma {:induction false} FlatMapAppend<T, U>(a: seq<T>, b: seq<T>, f: T -> seq<U>)
    ensures FlatMap(a + b, f) == FlatMap(a, f) + FlatMap(b, f)
    decreases |b|
  {
    if b == [] {
      assert a + b == a;
    } else {
      var init := b[..|b| - 1];
      FlatMapAppend(a, init, f);
      assert (a + b)[..|a + b| - 1] == a + init;
      assert (a + b)[|a + b| - 1] == b[|b| - 1];
    }
  }

  /** Element i's part sits between those of the elements before it and
      after it. */
  lemma FlatMapAt<T, U>(xs: seq<T>, f: T -> seq<U>, i: nat)
    requires i < |xs|
    ensures FlatMap(xs, f) == FlatMap(xs[..i], f) + f(xs[i]) + FlatMap(xs[i + 1..], f)
  {
    SplitAt(xs, i);
    FlatMapSplit(xs[..i], xs[i], xs[i + 1..], f);
  }

  lemma SplitAt<T>(xs: seq<T>, i: nat)
    requires i < |xs|
    ensures xs == xs[..i] + [xs[i]] + xs[i + 1..]
  {
  }

  lemma FlatMapSplit<T, U>(a: seq<T>, x: T, b: seq<T>, f: T -> seq<U>)
    ensures FlatMap(a + [x] + b, f) == FlatMap(a, f) + f(x) + FlatMap(b, f)
  {
    FlatMapAppend(a + [x], b, f);
    FlatMapLast(a, x, f);
  }

  lemma FlatMapLast<T, U>(a: seq<T>, x: T, f: T -> seq<U>)
    ensures FlatMap(a + [x], f) == FlatMap(a, f) + f(x)
  {
    assert (a + [x])[..|a|] == a;
  }

  lemma ConcatAssociative<T>(a: seq<T>, b: seq<T>, c: seq<T>)
    ensures a + b + c == a + (b + c)
  {
  }

  lemma RemoveAt<T>(b: seq<T>, k: nat)
    requires k < |b|
    ensures multiset(b[..k] + b[k + 1..]) == multiset(b) - multiset{b[k]}
  {
    assert b == b[..k] + [b[k]] + b[k + 1..];
  }

  lemma MapRemoveAt<T, U>(b: seq<T>, k: nat, f: T -> U)
    requires k < |b|
    ensures multiset(Map(b, f)) == multiset(Map(b[..k] + b[k + 1..], f)) + multiset{f(b[k])}
  {
    var m := Map(b, f);
    assert Map(b[..k] + b[k + 1..], f) == m[..k] + m[k + 1..];
    RemoveAt(m, k);
  }

  function Map<T, U>(xs: seq<T>, f: T -> U): (r: seq<U>)
    ensures |r| == |xs| && forall i :: 0 <= i < |xs| ==> r[i] == f(xs[i])
  {
    seq(|xs|, i requires 0 <= i < |xs| => f(xs[i]))
  }

  lemma MapConcat<T, U>(a: seq<T>, b: seq<T>, f: T -> U)
    ensures Map(a + b, f) == Map(a, f) + Map(b, f)
  {
  }

  /** The elements of `xs` whose key is `k`, in their order in `xs`
      (the members of one go-linq group). */
  function Select<T>(xs: seq<T>, key: T -> string, k: string): (r: seq<T>)
    ensures |r| <= |xs|
  {
    if xs == [] then []
    else (if key(xs[0]) == k then [xs[0]] else []) + Select(xs[1..], key, k)
  }

  /** Select keeps exactly the elements with key `k`. (A lemma rather than
      part of Select's contract, so that the two membership facts do not
      instantiate each other without end.) */
  lemma {:induction false} SelectMembers<T>(xs: seq<T>, key: T -> string, k: string)
    ensures forall i :: 0 <= i < |Select(xs, key, k)| ==>
      Select(xs, key, k)[i] in xs && key(Select(xs, key, k)[i]) == k
    ensures forall i :: 0 <= i < |xs| && key(xs[i]) == k ==> xs[i] in Select(xs, key, k)
  {
    if xs != [] {
      SelectMembers(xs[1..], key, k);
      var rest := Select(xs[1..], key, k);
      var r := Select(xs, key, k);
      forall i | 0 <= i < |r| ensures r[i] in xs && key(r[i]) == k {
        if key(xs[0]) != k || i > 0 {
          var j := if key(xs[0]) == k then i - 1 else i;
          assert r[i] == rest[j];
          assert rest[j] in xs[1..];
        }
      }
      forall i | 0 <= i < |xs| && key(xs[i]) == k ensures xs[i] in r {
        if i > 0 {
          assert xs[i] == xs[1..][i - 1];
        }
      }
    }
  }

  /** Selecting keeps the order of a sorted sequence. */
  lemma {:induction false} SelectSorted<T>(xs: seq<T>, key: T -> string, k: string, order: T -> Key)
    requires SortedBy(xs, order)
    ensures SortedBy(Select(xs, key, k), order)
  {
    if xs != [] {
      var rest := Select(xs[1..], key, k);
      assert SortedBy(xs[1..], order) by {
        forall i, j | 0 <= i < j < |xs[1..]| ensures KeyLeq(order(xs[1..][i]), order(xs[1..][j])) {
          assert xs[1..][i] == xs[i + 1] && xs[1..][j] == xs[j + 1];
        }
      }
      SelectSorted(xs[1..], key, k, order);
      SelectMembers(xs[1..], key, k);
      if key(xs[0]) == k {
        var r := [xs[0]] + rest;
        forall i, j | 0 <= i < j < |r| ensures KeyLeq(order(r[i]), order(r[j])) {
          if i == 0 {
            assert r[j] == rest[j - 1] && rest[j - 1] in xs[1..];
            var m :| 0 <= m < |xs[1..]| && xs[1..][m] == rest[j - 1];
            assert xs[m + 1] == r[j];
          } else {
            assert r[i] == rest[i - 1] && r[j] == rest[j - 1];
          }
        }
      }
    }
  }

  /** The distinct keys of `xs` in order of first appearance. */
  function KeysOf<T>(xs: seq<T>, key: T -> string): (ks: seq<string>)
    ensures forall i, j :: 0 <= i < j < |ks| ==> ks[i] != ks[j]
  {
    if xs == [] then []
    else
      var ks := KeysOf(xs[..|xs| - 1], key);
      var last := xs[|xs| - 1];
      if key(last) in ks then ks else ks + [key(last)]
  }

  /** KeysOf lists the key of every element and nothing else. */
  lemma {:induction false} KeysOfCover<T>(xs: seq<T>, key: T -> string)
    ensures forall i :: 0 <= i < |KeysOf(xs, key)| ==>
      exists j :: 0 <= j < |xs| && key(xs[j]) == KeysOf(xs, key)[i]
    ensures forall j :: 0 <= j < |xs| ==> key(xs[j]) in KeysOf(xs, key)
  {
    if xs != [] {
      var init := xs[..|xs| - 1];
      KeysOfCover(init, key);
      var ks := KeysOf(init, key);
      var r := KeysOf(xs, key);
      forall i | 0 <= i < |r| ensures exists j :: 0 <= j < |xs| && key(xs[j]) == r[i] {
        if i < |ks| {
          var j :| 0 <= j < |init| && key(init[j]) == ks[i];
          assert xs[j] == init[j];
        } else {
          assert r == ks + [key(xs[|xs| - 1])];
          assert key(xs[|xs| - 1]) == r[i];
        }
      }
      forall j | 0 <= j < |xs| ensures key(xs[j]) in r {
        if j < |xs| - 1 {
          assert xs[j] == init[j];
        }
      }
    } else {
      assert KeysOf(xs, key) == [];
    }
  }

  datatype Group<T> = Group(key: string, members: seq<T>)

  /** One group per key of `ks`, in the order of `ks`. */
  function GroupsFor<T>(xs: seq<T>, key: T -> string, ks: seq<string>): (gs: seq<Group<T>>)
    ensures |gs| == |ks|
    ensures forall i :: 0 <= i < |gs| ==> gs[i] == Group(ks[i], Select(xs, key, ks[i]))
  {
    if ks == [] then []
    else GroupsFor(xs, key, ks[..|ks| - 1]) + [Group(ks[|ks| - 1], Select(xs, key, ks[|ks| - 1]))]
  }

  /** go-linq's `GroupBy`: one group per distinct key, each holding the
      elements with that key in their original order. */
  function GroupBy<T>(xs: seq<T>, key: T -> string): seq<Group<T>> {
    GroupsFor(xs, key, KeysOf(xs, key))
  }

  /** The members of the groups, one group after the other. */
  function Members<T>(gs: seq<Group<T>>): seq<T> {
    if gs == [] then [] else Members(gs[..|gs| - 1]) + gs[|gs| - 1].members
  }

  /** The elements of `xs` whose key is one of `ks`. */
  function SelectAny<T>(xs: seq<T>, key: T -> string, ks: seq<string>): seq<T> {
    if xs == [] then []
    else (if key(xs[0]) in ks then [xs[0]] else []) + SelectAny(xs[1..], key, ks)
  }

  lemma {:induction false} SelectAnySplit<T>(xs: seq<T>, key: T -> string, ks: seq<string>, k: string)
    requires k !in ks
    ensures multiset(SelectAny(xs, key, ks + [k]))
         == multiset(SelectAny(xs, key, ks)) + multiset(Select(xs, key, k))
  {
    if xs != [] {
      SelectAnySplit(xs[1..], key, ks, k);
    }
  }

  lemma {:induction false} SelectAnyAll<T>(xs: seq<T>, key: T -> string, ks: seq<string>)
    requires forall x :: x in xs ==> key(x) in ks
    ensures SelectAny(xs, key, ks) == xs
  {
    if xs != [] {
      SelectAnyAll(xs[1..], key, ks);
      assert xs == [xs[0]] + xs[1..];
    }
  }

  lemma {:induction false} GroupsForCover<T>(xs: seq<T>, key: T -> string, ks: seq<string>)
    requires forall i, j :: 0 <= i < j < |ks| ==> ks[i] != ks[j]
    ensures multiset(Members(GroupsFor(xs, key, ks))) == multiset(SelectAny(xs, key, ks))
  {
    if ks == [] {
      SelectAnyNone(xs, key);
    } else {
      var init := ks[..|ks| - 1];
      var gs := GroupsFor(xs, key, ks);
      assert gs[..|gs| - 1] == GroupsFor(xs, key, init);
      GroupsForCover(xs, key, init);
      SelectAnySplit(xs, key, init, ks[|ks| - 1]);
      assert init + [ks[|ks| - 1]] == ks;
    }
  }

  lemma {:induction false} SelectAnyNone<T>(xs: seq<T>, key: T -> string)
    ensures SelectAny(xs, key, []) == []
  {
    if xs != [] {
      SelectAnyNone(xs[1..], key);
    }
  }

  /** Grouping loses and duplicates nothing: the groups' members are a
      permutation of the input. */
  lemma GroupByPartition<T>(xs: seq<T>, key: T -> string)
    ensures multiset(Members(GroupBy(xs, key))) == multiset(xs)
  {
    var ks := KeysOf(xs, key);
    KeysOfCover(xs, key);
    GroupsForCover(xs, key, ks);
    SelectAnyAll(xs, key, ks);
  }

  /** Every group of GroupBy has its own key, is not empty, and holds only
      elements of the input that have that key. */
  lemma GroupByGroups<T>(xs: seq<T>, key: T -> string)
    ensures forall g :: g in GroupBy(xs, key) ==>
      |g.members| > 0 && forall m :: m in g.members ==> m in xs && key(m) == g.key
    ensures forall x :: x in xs ==> exists g :: g in GroupBy(xs, key) && g.key == key(x) && x in g.members
  {
    var ks := KeysOf(xs, key);
    var gs := GroupBy(xs, key);
    KeysOfCover(xs, key);
    forall g | g in gs
      ensures |g.members| > 0 && forall m :: m in g.members ==> m in xs && key(m) == g.key
    {
      var i :| 0 <= i < |gs| && gs[i] == g;
      SelectMembers(xs, key, ks[i]);
      var j :| 0 <= j < |xs| && key(xs[j]) == ks[i];
      assert xs[j] in g.members;
      forall m | m in g.members ensures m in xs && key(m) == g.key {
        var n :| 0 <= n < |g.members| && g.members[n] == m;
      }
    }
    forall x | x in xs
      ensures exists g :: g in gs && g.key == key(x) && x in g.members
    {
      var j :| 0 <= j < |xs| && xs[j] == x;
      var i :| 0 <= i < |ks| && ks[i] == key(x);
      SelectMembers(xs, key, ks[i]);
      assert gs[i] in gs;
    }
  }
}
