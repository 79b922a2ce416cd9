/**
 Member sorting, and the proof that sorting every object by key is a complete
 invariant for equality up to member order.
 */
module CanonicalOrder {
  import opened Json

  predicate Sorted<N>(ms: seq<Member<N>>) {
    forall i, j :: 0 <= i < j < |ms| ==> Before(ms[i].key, ms[j].key)
  }

  /** Puts `m` in front of the first member whose key is not smaller. */
  function Insert<N>(m: Member<N>, ms: seq<Member<N>>): seq<Member<N>> {
    if ms == [] || !Before(ms[0].key, m.key) then [m] + ms
    else [ms[0]] + Insert(m, ms[1..])
  }

  /** The order `qsort` with `compare_keys` leaves the members in. */
  function Sort<N>(ms: seq<Member<N>>): seq<Member<N>> {
    if ms == [] then [] else Insert(ms[0], Sort(ms[1..]))
  }

  lemma {:induction false} InsertElements<N>(m: Member<N>, ms: seq<Member<N>>)
    ensures multiset(Insert(m, ms)) == multiset{m} + multiset(ms)
  {
    if ms != [] && Before(ms[0].key, m.key) {
      InsertElements(m, ms[1..]);
      assert ms == [ms[0]] + ms[1..];
    }
  }

  lemma {:induction false} InsertSorted<N>(m: Member<N>, ms: seq<Member<N>>)
    requires Sorted(ms)
    requires forall i :: 0 <= i < |ms| ==> ms[i].key != m.key
    ensures Sorted(Insert(m, ms))
  {
    if ms == [] {
    } else if Before(ms[0].key, m.key) {
      var rest := Insert(m, ms[1..]);
      InsertSorted(m, ms[1..]);
      InsertElements(m, ms[1..]);
      forall x | x in rest ensures Before(ms[0].key, x.key) {
        assert x in multiset(rest);
        if x != m { assert x in ms[1..]; }
      }
    } else {
      BeforeTotal(ms[0].key, m.key);
      forall j | 0 <= j < |ms| ensures Before(m.key, ms[j].key) {
        if j > 0 { BeforeTransitive(m.key, ms[0].key, ms[j].key); }
      }
    }
  }

  /** Sorting members with distinct keys permutes them into strict key order. */
  lemma {:induction false} SortSorts<N>(ms: seq<Member<N>>)
    ensures multiset(Sort(ms)) == multiset(ms)
    ensures DistinctKeys(ms) ==> Sorted(Sort(ms))
  {
    if ms != [] {
      var rest := Sort(ms[1..]);
      SortSorts(ms[1..]);
      InsertElements(ms[0], rest);
      assert ms == [ms[0]] + ms[1..];
      if DistinctKeys(ms) {
        forall i | 0 <= i < |rest| ensures rest[i].key != ms[0].key {
          assert rest[i] in multiset(ms[1..]);
          var k :| 0 <= k < |ms[1..]| && ms[1..][k] == rest[i];
          assert ms[0].key != ms[k + 1].key;
        }
        InsertSorted(ms[0], rest);
      }
    }
  }

  lemma SortMembership<N>(ms: seq<Member<N>>)
    ensures |Sort(ms)| == |ms|
    ensures forall m :: m in Sort(ms) <==> m in ms
  {
    SortSorts(ms);
    assert |multiset(Sort(ms))| == |multiset(ms)|;
    forall m ensures m in Sort(ms) <==> m in ms {
      assert m in Sort(ms) <==> m in multiset(Sort(ms));
    }
  }

  lemma SortedFrom<N>(ms: seq<Member<N>>, i: nat)
    requires i < |Sort(ms)|
    ensures Sort(ms)[i] in ms
  {
    SortSorts(ms);
    assert Sort(ms)[i] in multiset(Sort(ms));
  }

  lemma SortedTo<N>(ms: seq<Member<N>>, k: nat)
    requires k < |ms|
    ensures ms[k] in Sort(ms)
  {
    SortSorts(ms);
    assert ms[k] in multiset(ms);
  }

  /** A strictly sorted list is determined by its elements. */
  lemma {:induction false} SortedUnique<N>(a: seq<Member<N>>, b: seq<Member<N>>)
    requires Sorted(a) && Sorted(b)
    requires forall m :: m in a <==> m in b
    ensures a == b
  {
    assert b != [] ==> b[0] in a;
    if a != [] {
      assert a[0] in b;
      assert b[0] in a;
      FirstIsLeast(a, b[0]);
      FirstIsLeast(b, a[0]);
      if a[0] != b[0] {
        BeforeTransitive(a[0].key, b[0].key, a[0].key);
        BeforeIrreflexive(a[0].key);
      }
      forall m ensures m in a[1..] <==> m in b[1..] {
        TailMembership(a, m);
        TailMembership(b, m);
      }
      SortedUnique(a[1..], b[1..]);
      assert a == [a[0]] + a[1..] && b == [b[0]] + b[1..];
    }
  }

  lemma FirstIsLeast<N>(a: seq<Member<N>>, m: Member<N>)
    requires Sorted(a) && m in a
    ensures m == a[0] || Before(a[0].key, m.key)
  {
  }

  lemma TailMembership<N>(a: seq<Member<N>>, m: Member<N>)
    requires Sorted(a) && a != []
    ensures m in a[1..] <==> m in a && m != a[0]
  {
    BeforeIrreflexive(a[0].key);
    if m in a[1..] {
      var i :| 0 <= i < |a[1..]| && a[1..][i] == m;
      assert m == a[i + 1] && Before(a[0].key, a[i + 1].key);
    }
    if m in a && m != a[0] {
      var i :| 0 <= i < |a| && a[i] == m;
      assert m == a[1..][i - 1];
    }
  }

  /** The tree with the members of every object sorted by key. */
  function Canon<N>(j: Json<N>): Json<N>
    decreases j, 1
  {
    match j
    case Arr(xs) => Arr(CanonItems(xs))
    case Obj(ms) => Obj(Sort(CanonMembers(ms)))
    case _ => j
  }

  function CanonItems<N>(xs: seq<Json<N>>): (r: seq<Json<N>>)
    ensures |r| == |xs| && forall i :: 0 <= i < |xs| ==> r[i] == Canon(xs[i])
    decreases xs, 0
  {
    if xs == [] then [] else [Canon(xs[0])] + CanonItems(xs[1..])
  }

  function CanonMembers<N>(ms: seq<Member<N>>): (r: seq<Member<N>>)
    ensures |r| == |ms| && forall i :: 0 <= i < |ms| ==> r[i] == CanonMember(ms[i])
    decreases ms, 0
  {
    if ms == [] then [] else [CanonMember(ms[0])] + CanonMembers(ms[1..])
  }

  function CanonMember<N>(m: Member<N>): Member<N>
    decreases m, 0
  {
    Member(m.key, Canon(m.value))
  }

  /**
   Two trees have the same canonical tree exactly when they are equal up to
   member order.
   */
  lemma {:induction false} CanonDecides<N>(x: Json<N>, y: Json<N>)
    requires WellFormed(x) && WellFormed(y)
    ensures SameUpToOrder(x, y) <==> Canon(x) == Canon(y)
    decreases x, 1
  {
    match x
    case Arr(xs) =>
      if y.Arr? && |xs| == |y.items| {
        forall i | 0 <= i < |xs| ensures SameUpToOrder(xs[i], y.items[i]) <==> Canon(xs[i]) == Canon(y.items[i]) {
          CanonDecides(xs[i], y.items[i]);
        }
        if Canon(x) == Canon(y) {
          forall i | 0 <= i < |xs| ensures SameUpToOrder(xs[i], y.items[i]) {
            assert CanonItems(xs)[i] == CanonItems(y.items)[i];
          }
        }
      } else if y.Arr? {
        assert |CanonItems(xs)| != |CanonItems(y.items)|;
      }
    case Obj(ms) =>
      if y.Obj? { CanonDecidesMembers(ms, y.members); }
    case _ =>
  }

  /** The object case of `CanonDecides`. */
  lemma {:induction false} CanonDecidesMembers<N>(ms: seq<Member<N>>, ns: seq<Member<N>>)
    requires WellFormed(Obj(ms)) && WellFormed(Obj(ns))
    ensures SameUpToOrder(Obj(ms), Obj(ns)) <==> Sort(CanonMembers(ms)) == Sort(CanonMembers(ns))
    decreases ms, 0
  {
    var a, b := CanonMembers(ms), CanonMembers(ns);
    forall i, k | 0 <= i < |ms| && 0 <= k < |ns|
      ensures SameMember(ms[i], ns[k]) <==> a[i] == b[k]
    {
      CanonDecides(ms[i].value, ns[k].value);
    }
    if SameUpToOrder(Obj(ms), Obj(ns)) { SameMembersSortAlike(ms, ns, a, b); }
    if Sort(a) == Sort(b) { AlikeSortedSameMembers(ms, ns, a, b); }
  }

  lemma {:induction false} SameMembersSortAlike<N>(
      ms: seq<Member<N>>, ns: seq<Member<N>>, a: seq<Member<N>>, b: seq<Member<N>>)
    requires |a| == |ms| && |b| == |ns| && DistinctKeys(a) && DistinctKeys(b)
    requires forall i, k :: 0 <= i < |ms| && 0 <= k < |ns| && SameMember(ms[i], ns[k]) ==> a[i] == b[k]
    requires SameUpToOrder(Obj(ms), Obj(ns))
    ensures Sort(a) == Sort(b)
  {
    forall m ensures m in a <==> m in b {
      if m in a {
        var i :| 0 <= i < |a| && a[i] == m;
        assert MatchedBy(ms[i], ns);
        var k :| 0 <= k < |ns| && SameMember(ms[i], ns[k]);
        assert b[k] == m;
      }
      if m in b {
        var k :| 0 <= k < |b| && b[k] == m;
        assert Matches(ms, ns[k]);
        var i :| 0 <= i < |ms| && SameMember(ms[i], ns[k]);
        assert a[i] == m;
      }
    }
    SortMembership(a);
    SortMembership(b);
    SortSorts(a);
    SortSorts(b);
    SortedUnique(Sort(a), Sort(b));
  }

  lemma {:induction false} AlikeSortedSameMembers<N>(
      ms: seq<Member<N>>, ns: seq<Member<N>>, a: seq<Member<N>>, b: seq<Member<N>>)
    requires |a| == |ms| && |b| == |ns|
    requires forall i, k :: 0 <= i < |ms| && 0 <= k < |ns| && a[i] == b[k] ==> SameMember(ms[i], ns[k])
    requires Sort(a) == Sort(b)
    ensures SameUpToOrder(Obj(ms), Obj(ns))
  {
    SortMembership(a);
    SortMembership(b);
    forall i | 0 <= i < |ms| ensures MatchedBy(ms[i], ns) {
      assert a[i] in b;
      var k :| 0 <= k < |b| && b[k] == a[i];
      assert SameMember(ms[i], ns[k]);
    }
    forall k | 0 <= k < |ns| ensures Matches(ms, ns[k]) {
      assert b[k] in a;
      var i :| 0 <= i < |a| && a[i] == b[k];
      assert SameMember(ms[i], ns[k]);
    }
  }

  // Renaming numbers and measuring depth commute with sorting.

  lemma {:induction false} SortMapMembers<A, B>(f: A -> B, ms: seq<Member<A>>)
    ensures Sort(MapMembers(f, ms)) == MapMembers(f, Sort(ms))
  {
    if ms != [] {
      SortMapMembers(f, ms[1..]);
      InsertMapMembers(f, ms[0], Sort(ms[1..]));
    }
  }

  lemma {:induction false} InsertMapMembers<A, B>(f: A -> B, m: Member<A>, ms: seq<Member<A>>)
    ensures Insert(Member(m.key, MapNumbers(f, m.value)), MapMembers(f, ms)) == MapMembers(f, Insert(m, ms))
  {
    if ms != [] && Before(ms[0].key, m.key) {
      InsertMapMembers(f, m, ms[1..]);
    }
  }

  lemma {:induction false} SortCanonMembers<N>(ms: seq<Member<N>>)
    ensures Sort(CanonMembers(ms)) == CanonMembers(Sort(ms))
  {
    if ms != [] {
      SortCanonMembers(ms[1..]);
      InsertCanonMembers(ms[0], Sort(ms[1..]));
    }
  }

  lemma {:induction false} InsertCanonMembers<N>(m: Member<N>, ms: seq<Member<N>>)
    ensures Insert(CanonMember(m), CanonMembers(ms)) == CanonMembers(Insert(m, ms))
  {
    if ms != [] && Before(ms[0].key, m.key) {
      InsertCanonMembers(m, ms[1..]);
    }
  }

  lemma {:induction false} CanonMapNumbers<A, B>(f: A -> B, j: Json<A>)
    ensures Canon(MapNumbers(f, j)) == MapNumbers(f, Canon(j))
  {
    match j
    case Arr(xs) =>
      forall i | 0 <= i < |xs| ensures Canon(MapNumbers(f, xs[i])) == MapNumbers(f, Canon(xs[i])) {
        CanonMapNumbers(f, xs[i]);
      }
      assert CanonItems(MapItems(f, xs)) == MapItems(f, CanonItems(xs));
    case Obj(ms) =>
      forall i | 0 <= i < |ms| ensures Canon(MapNumbers(f, ms[i].value)) == MapNumbers(f, Canon(ms[i].value)) {
        CanonMapNumbers(f, ms[i].value);
      }
      assert CanonMembers(MapMembers(f, ms)) == MapMembers(f, CanonMembers(ms));
      SortMapMembers(f, CanonMembers(ms));
    case _ =>
  }

  /** Sorting moves members about but changes no number. */
  lemma {:induction false} CanonAllNumbers<N>(p: N -> bool, j: Json<N>)
    ensures AllNumbers(p, Canon(j)) <==> AllNumbers(p, j)
  {
    match j
    case Arr(xs) =>
      forall i | 0 <= i < |xs| ensures AllNumbers(p, Canon(xs[i])) <==> AllNumbers(p, xs[i]) {
        CanonAllNumbers(p, xs[i]);
      }
    case Obj(ms) =>
      var a := CanonMembers(ms);
      SortMembership(a);
      forall i | 0 <= i < |ms| ensures AllNumbers(p, a[i].value) <==> AllNumbers(p, ms[i].value) {
        CanonAllNumbers(p, ms[i].value);
      }
      if AllNumbers(p, Canon(j)) {
        forall i | 0 <= i < |ms| ensures AllNumbers(p, ms[i].value) {
          assert a[i] in Sort(a);
        }
      }
      if AllNumbers(p, j) {
        forall i | 0 <= i < |Sort(a)| ensures AllNumbers(p, Sort(a)[i].value) {
          assert Sort(a)[i] in a;
        }
      }
    case _ =>
  }
}
