/**
 JSON trees as both processes see them after parsing, and the order-blind
 equality that signatures must respect.

 A `char` stands for one byte of UTF-8 text, so `<` on chars is the unsigned
 byte comparison of `strcmp` and of `std::string`.  The tree is generic in its
 numbers: the agent holds integers and float literals, the daemon doubles.
 */
module Json {

  datatype Json<N> =
    | Null
    | Bool(b: bool)
    | Num(n: N)
    | Str(s: string)
    | Arr(items: seq<Json<N>>)
    | Obj(members: seq<Member<N>>)

  datatype Member<N> = Member(key: string, value: Json<N>)

  /** `strcmp(a, b) < 0` on NUL-free byte strings. */
  predicate Before(a: string, b: string) {
    if b == "" then false
    else if a == "" then true
    else if a[0] != b[0] then a[0] < b[0]
    else Before(a[1..], b[1..])
  }

  lemma {:induction false} BeforeIrreflexive(a: string)
    ensures !Before(a, a)
  {
    if a != "" { BeforeIrreflexive(a[1..]); }
  }

  lemma {:induction false} BeforeTransitive(a: string, b: string, c: string)
    requires Before(a, b) && Before(b, c)
    ensures Before(a, c)
  {
    if a != "" && a[0] == b[0] && b[0] == c[0] {
      BeforeTransitive(a[1..], b[1..], c[1..]);
    }
  }

  lemma {:induction false} BeforeTotal(a: string, b: string)
    ensures a == b || Before(a, b) || Before(b, a)
  {
    if a != "" && b != "" && a[0] == b[0] {
      BeforeTotal(a[1..], b[1..]);
      assert a == [a[0]] + a[1..] && b == [b[0]] + b[1..];
    }
  }

  /** Alike in the first `k` bytes; there `a` ends, or has the smaller byte. */
  predicate LessAt(a: string, b: string, k: nat) {
    k <= |a| && k < |b| && a[..k] == b[..k] && (k == |a| || a[k] < b[k])
  }

  /** Byte order: what decides is the first position where the strings differ. */
  ghost predicate ByteLess(a: string, b: string) { exists k: nat :: LessAt(a, b, k) }

  lemma {:induction false} BeforeIff(a: string, b: string)
    ensures Before(a, b) <==> ByteLess(a, b)
  {
    if a != "" && b != "" && a[0] == b[0] {
      BeforeIff(a[1..], b[1..]);
      if Before(a, b) {
        var k: nat :| LessAt(a[1..], b[1..], k);
        assert a[..k + 1] == [a[0]] + a[1..][..k] && b[..k + 1] == [b[0]] + b[1..][..k];
        assert LessAt(a, b, k + 1);
      }
      if k: nat :| LessAt(a, b, k) {
        assert k > 0 && a[1..][..k - 1] == a[..k][1..] && b[1..][..k - 1] == b[..k][1..];
        assert LessAt(a[1..], b[1..], k - 1);
      }
    } else if Before(a, b) {
      assert LessAt(a, b, 0);
    }
  }

  /** No two members of one object share a key. */
  predicate DistinctKeys<N>(ms: seq<Member<N>>) {
    forall i, j :: 0 <= i < j < |ms| ==> ms[i].key != ms[j].key
  }

  /** Every object in the tree has distinct keys. */
  predicate WellFormed<N>(j: Json<N>) {
    match j
    case Arr(xs) => forall i :: 0 <= i < |xs| ==> WellFormed(xs[i])
    case Obj(ms) => DistinctKeys(ms) && forall i :: 0 <= i < |ms| ==> WellFormed(ms[i].value)
    case _ => true
  }

  /** Equality up to the order of object members, at every depth. */
  ghost predicate SameUpToOrder<N>(x: Json<N>, y: Json<N>)
    decreases x
  {
    match x
    case Arr(xs) =>
      y.Arr? && |xs| == |y.items| && forall i :: 0 <= i < |xs| ==> SameUpToOrder(xs[i], y.items[i])
    case Obj(ms) =>
      && y.Obj?
      && (forall i {:trigger MatchedBy(ms[i], y.members)} :: 0 <= i < |ms| ==> MatchedBy(ms[i], y.members))
      && (forall k {:trigger Matches(ms, y.members[k])} :: 0 <= k < |y.members| ==> Matches(ms, y.members[k]))
    case _ => x == y
  }

  ghost predicate SameMember<N>(a: Member<N>, b: Member<N>)
    decreases a, 0
  {
    a.key == b.key && SameUpToOrder(a.value, b.value)
  }

  ghost predicate MatchedBy<N>(m: Member<N>, ns: seq<Member<N>>)
    decreases m, 1
  {
    exists k :: 0 <= k < |ns| && SameMember(m, ns[k])
  }

  ghost predicate Matches<N>(ms: seq<Member<N>>, n: Member<N>)
    decreases ms, 1
  {
    exists i :: 0 <= i < |ms| && SameMember(ms[i], n)
  }

  /** How deep arrays and objects nest; a scalar has depth 0. */
  function Depth<N>(j: Json<N>): nat {
    match j
    case Arr(xs) => 1 + ItemsDepth(xs)
    case Obj(ms) => 1 + MembersDepth(ms)
    case _ => 0
  }

  function ItemsDepth<N>(xs: seq<Json<N>>): nat {
    if xs == [] then 0 else Max(Depth(xs[0]), ItemsDepth(xs[1..]))
  }

  function MembersDepth<N>(ms: seq<Member<N>>): nat {
    if ms == [] then 0 else Max(Depth(ms[0].value), MembersDepth(ms[1..]))
  }

  function Max(a: nat, b: nat): nat { if a < b then b else a }

  /** The tree with `f` applied to every number. */
  function MapNumbers<A, B>(f: A -> B, j: Json<A>): Json<B>
    decreases j, 1
  {
    match j
    case Null => Null
    case Bool(b) => Bool(b)
    case Num(n) => Num(f(n))
    case Str(s) => Str(s)
    case Arr(xs) => Arr(MapItems(f, xs))
    case Obj(ms) => Obj(MapMembers(f, ms))
  }

  function MapItems<A, B>(f: A -> B, xs: seq<Json<A>>): (r: seq<Json<B>>)
    ensures |r| == |xs|
    ensures forall i :: 0 <= i < |xs| ==> r[i] == MapNumbers(f, xs[i])
    decreases xs, 0
  {
    if xs == [] then [] else [MapNumbers(f, xs[0])] + MapItems(f, xs[1..])
  }

  function MapMembers<A, B>(f: A -> B, ms: seq<Member<A>>): (r: seq<Member<B>>)
    ensures |r| == |ms|
    ensures forall i :: 0 <= i < |ms| ==> r[i] == Member(ms[i].key, MapNumbers(f, ms[i].value))
    decreases ms, 0
  {
    if ms == [] then []
    else [Member(ms[0].key, MapNumbers(f, ms[0].value))] + MapMembers(f, ms[1..])
  }

  /** Every number of the tree satisfies `p`. */
  predicate AllNumbers<N>(p: N -> bool, j: Json<N>) {
    match j
    case Num(n) => p(n)
    case Arr(xs) => forall i :: 0 <= i < |xs| ==> AllNumbers(p, xs[i])
    case Obj(ms) => forall i :: 0 <= i < |ms| ==> AllNumbers(p, ms[i].value)
    case _ => true
  }

  /** A renaming leaves a tree alone exactly when it leaves each of its numbers alone. */
  lemma {:induction false} MapFixes<N>(g: N -> N, same: N -> bool, j: Json<N>)
    requires forall n :: same(n) <==> g(n) == n
    ensures MapNumbers(g, j) == j <==> AllNumbers(same, j)
  {
    match j
    case Arr(xs) =>
      forall i | 0 <= i < |xs| ensures MapItems(g, xs)[i] == xs[i] <==> AllNumbers(same, xs[i]) {
        MapFixes(g, same, xs[i]);
      }
    case Obj(ms) =>
      forall i | 0 <= i < |ms| ensures MapMembers(g, ms)[i] == ms[i] <==> AllNumbers(same, ms[i].value) {
        MapFixes(g, same, ms[i].value);
      }
    case _ =>
  }

  lemma {:induction false} MapCompose<A, B, C>(f: A -> B, g: B -> C, h: A -> C, j: Json<A>)
    requires forall n :: h(n) == g(f(n))
    ensures MapNumbers(g, MapNumbers(f, j)) == MapNumbers(h, j)
  {
    match j
    case Arr(xs) =>
      forall i | 0 <= i < |xs| ensures MapNumbers(g, MapNumbers(f, xs[i])) == MapNumbers(h, xs[i]) {
        MapCompose(f, g, h, xs[i]);
      }
    case Obj(ms) =>
      forall i | 0 <= i < |ms| ensures MapNumbers(g, MapNumbers(f, ms[i].value)) == MapNumbers(h, ms[i].value) {
        MapCompose(f, g, h, ms[i].value);
      }
    case _ =>
  }

  lemma {:induction false} AllNumbersImplies<N(!new)>(p: N -> bool, q: N -> bool, j: Json<N>)
    requires AllNumbers(p, j) && forall n :: p(n) ==> q(n)
    ensures AllNumbers(q, j)
  {
    match j
    case Arr(xs) => forall i | 0 <= i < |xs| { AllNumbersImplies(p, q, xs[i]); }
    case Obj(ms) => forall i | 0 <= i < |ms| { AllNumbersImplies(p, q, ms[i].value); }
    case _ =>
  }

  /** Renaming numbers keeps trees equal up to member order. */
  lemma {:induction false} MapSame<A, B>(f: A -> B, x: Json<A>, y: Json<A>)
    requires SameUpToOrder(x, y)
    ensures SameUpToOrder(MapNumbers(f, x), MapNumbers(f, y))
    decreases x, 1
  {
    match x
    case Arr(xs) =>
      forall i | 0 <= i < |xs| ensures SameUpToOrder(MapItems(f, xs)[i], MapItems(f, y.items)[i]) {
        MapSame(f, xs[i], y.items[i]);
      }
    case Obj(ms) => MapSameMembers(f, ms, y.members);
    case _ =>
  }

  lemma {:induction false} MapSameMembers<A, B>(f: A -> B, ms: seq<Member<A>>, ns: seq<Member<A>>)
    requires SameUpToOrder(Obj(ms), Obj(ns))
    ensures SameUpToOrder(Obj(MapMembers(f, ms)), Obj(MapMembers(f, ns)))
    decreases ms, 0
  {
    var ms', ns' := MapMembers(f, ms), MapMembers(f, ns);
    forall i | 0 <= i < |ms'| ensures MatchedBy(ms'[i], ns') {
      assert MatchedBy(ms[i], ns);
      var k :| 0 <= k < |ns| && SameMember(ms[i], ns[k]);
      MapSame(f, ms[i].value, ns[k].value);
      assert SameMember(ms'[i], ns'[k]);
    }
    forall k | 0 <= k < |ns'| ensures Matches(ms', ns'[k]) {
      assert Matches(ms, ns[k]);
      var i :| 0 <= i < |ms| && SameMember(ms[i], ns[k]);
      MapSame(f, ms[i].value, ns[k].value);
      assert SameMember(ms'[i], ns'[k]);
    }
  }
}
