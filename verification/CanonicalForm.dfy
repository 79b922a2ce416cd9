/**
 The canonical text of a tree: sort the members of every object, then print.
 `CanonicalizeJcs` in the agent, `jcs_canonicalize` in the daemon and
 `CanonicalizeWss` on the WebSocket all come down to this function.
 */
module CanonicalForm {
  import opened Json
  import opened CanonicalOrder
  import opened CanonicalText

  function Canonical(j: Json<Number>): string { Text(Canon(j)) }

  /**
   Canonical texts are equal exactly when the trees are equal up to member
   order at every depth: the text ignores order and nothing else.
   */
  lemma CanonicalIff(x: Json<Number>, y: Json<Number>)
    requires WellFormed(x) && WellFormed(y) && Printable(x) && Printable(y)
    ensures Canonical(x) == Canonical(y) <==> SameUpToOrder(x, y)
  {
    CanonDecides(x, y);
    CanonAllNumbers(ValidNumber, x);
    CanonAllNumbers(ValidNumber, y);
    if Canonical(x) == Canonical(y) { TextInjective(Canon(x), Canon(y)); }
  }

  /** Keys stand in byte order in every object. */
  ghost predicate InByteOrder(j: Json<Number>) {
    match j
    case Arr(xs) => forall i :: 0 <= i < |xs| ==> InByteOrder(xs[i])
    case Obj(ms) => KeysInByteOrder(ms) && forall i :: 0 <= i < |ms| ==> InByteOrder(ms[i].value)
    case _ => true
  }

  ghost predicate KeysInByteOrder(ms: seq<Member<Number>>) {
    forall i, k :: 0 <= i < k < |ms| ==> ByteLess(ms[i].key, ms[k].key)
  }

  lemma SortedInByteOrder(ms: seq<Member<Number>>)
    requires Sorted(ms)
    ensures KeysInByteOrder(ms)
  {
    forall i, k | 0 <= i < k < |ms| ensures ByteLess(ms[i].key, ms[k].key) {
      BeforeIff(ms[i].key, ms[k].key);
    }
  }

  lemma {:induction false} CanonInByteOrder(j: Json<Number>)
    requires WellFormed(j)
    ensures InByteOrder(Canon(j))
  {
    match j
    case Arr(xs) => forall i | 0 <= i < |xs| ensures InByteOrder(CanonItems(xs)[i]) { CanonInByteOrder(xs[i]); }
    case Obj(ms) =>
      var r := CanonMembers(ms);
      forall i | 0 <= i < |ms| ensures InByteOrder(r[i].value) { CanonInByteOrder(ms[i].value); }
      SortSorts(r);
      SortedInByteOrder(Sort(r));
      forall i | 0 <= i < |Sort(r)| ensures InByteOrder(Sort(r)[i].value) { SortedFrom(r, i); }
    case _ =>
  }

  lemma {:induction false} CanonSame(j: Json<Number>)
    ensures SameUpToOrder(j, Canon(j))
    decreases j, 1
  {
    match j
    case Arr(xs) => forall i | 0 <= i < |xs| ensures SameUpToOrder(xs[i], CanonItems(xs)[i]) { CanonSame(xs[i]); }
    case Obj(ms) => CanonSameMembers(ms);
    case _ =>
  }

  lemma {:induction false} CanonSameMembers(ms: seq<Member<Number>>)
    ensures SameUpToOrder(Obj(ms), Obj(Sort(CanonMembers(ms))))
    decreases ms, 0
  {
    var r := CanonMembers(ms);
    var s := Sort(r);
    forall i | 0 <= i < |ms| ensures SameMember(ms[i], r[i]) { CanonSame(ms[i].value); }
    forall i | 0 <= i < |ms| ensures MatchedBy(ms[i], s) {
      SortedTo(r, i);
      var k :| 0 <= k < |s| && s[k] == r[i];
    }
    forall k | 0 <= k < |s| ensures Matches(ms, s[k]) {
      SortedFrom(r, k);
      var i :| 0 <= i < |r| && r[i] == s[k];
    }
  }

  /**
   The canonical text of a tree, read as JSON, is the same tree but for the order
   of members, and in it all keys stand in byte order.
   */
  lemma CanonicalReads(j: Json<Number>)
    requires WellFormed(j) && Printable(j)
    ensures Read(Canonical(j)).Some?
    ensures SameUpToOrder(j, Read(Canonical(j)).value) && InByteOrder(Read(Canonical(j)).value)
  {
    CanonAllNumbers(ValidNumber, j);
    ReadBack(Canon(j));
    CanonSame(j);
    CanonInByteOrder(j);
  }
}

/**
 The text a WebSocket message is signed over: every member named `sig` is
 removed, at every depth, before the canonical text is taken.
 */
module WssCanonical {
  import opened Json
  import opened CanonicalText
  import opened CanonicalForm

  const SIG := "sig"

  function Strip(j: Json<Number>): Json<Number>
    decreases j, 1
  {
    match j
    case Arr(xs) => Arr(StripItems(xs))
    case Obj(ms) => Obj(StripMembers(ms))
    case _ => j
  }

  function StripItems(xs: seq<Json<Number>>): (r: seq<Json<Number>>)
    ensures |r| == |xs| && forall i :: 0 <= i < |xs| ==> r[i] == Strip(xs[i])
    decreases xs, 0
  {
    if xs == [] then [] else [Strip(xs[0])] + StripItems(xs[1..])
  }

  function StripMembers(ms: seq<Member<Number>>): (r: seq<Member<Number>>)
    decreases ms, 0
  {
    if ms == [] then []
    else (if ms[0].key == SIG then [] else [StripMember(ms[0])]) + StripMembers(ms[1..])
  }

  function StripMember(m: Member<Number>): Member<Number>
    decreases m, 0
  {
    Member(m.key, Strip(m.value))
  }

  function CanonicalizeWss(j: Json<Number>): string { Canonical(Strip(j)) }

  /** Equality up to member order that also ignores every `sig` member, at every depth. */
  ghost predicate SameIgnoringSig(x: Json<Number>, y: Json<Number>)
    decreases x
  {
    match x
    case Arr(xs) =>
      y.Arr? && |xs| == |y.items| && forall i :: 0 <= i < |xs| ==> SameIgnoringSig(xs[i], y.items[i])
    case Obj(ms) =>
      && y.Obj?
      && (forall i {:trigger UnsignedIn(ms[i], y.members)} ::
            0 <= i < |ms| && ms[i].key != SIG ==> UnsignedIn(ms[i], y.members))
      && (forall k {:trigger UnsignedOf(ms, y.members[k])} ::
            0 <= k < |y.members| && y.members[k].key != SIG ==> UnsignedOf(ms, y.members[k]))
    case _ => x == y
  }

  ghost predicate UnsignedIn(m: Member<Number>, ns: seq<Member<Number>>)
    decreases m, 1
  {
    exists k :: 0 <= k < |ns| && ns[k].key == m.key && SameIgnoringSig(m.value, ns[k].value)
  }

  ghost predicate UnsignedOf(ms: seq<Member<Number>>, n: Member<Number>)
    decreases ms, 1
  {
    exists i :: 0 <= i < |ms| && ms[i].key == n.key && SameIgnoringSig(ms[i].value, n.value)
  }

  /** Where the stripped form of member `i` ends up. */
  lemma {:induction false} StripTo(ms: seq<Member<Number>>, i: nat) returns (p: nat)
    requires i < |ms| && ms[i].key != SIG
    ensures p < |StripMembers(ms)| && StripMembers(ms)[p] == StripMember(ms[i])
  {
    if i == 0 {
      p := 0;
    } else {
      p := StripTo(ms[1..], i - 1);
      p := p + if ms[0].key == SIG then 0 else 1;
    }
  }

  /** Which member the stripped member `p` comes from. */
  lemma {:induction false} StripFrom(ms: seq<Member<Number>>, p: nat) returns (i: nat)
    requires p < |StripMembers(ms)|
    ensures i < |ms| && ms[i].key != SIG && StripMembers(ms)[p] == StripMember(ms[i])
  {
    if ms[0].key != SIG && p == 0 {
      i := 0;
    } else {
      i := StripFrom(ms[1..], p - if ms[0].key == SIG then 0 else 1);
      i := i + 1;
    }
  }

  lemma {:induction false} StripDistinct(ms: seq<Member<Number>>)
    requires DistinctKeys(ms)
    ensures DistinctKeys(StripMembers(ms))
  {
    if ms != [] {
      StripDistinct(ms[1..]);
      var rest := StripMembers(ms[1..]);
      forall j | 0 <= j < |rest| ensures rest[j].key != ms[0].key {
        var i := StripFrom(ms[1..], j);
        assert ms[i + 1] == ms[1..][i];
      }
    }
  }

  /** Stripping keeps keys distinct and floats printable. */
  lemma {:induction false} StripKeepsShape(j: Json<Number>)
    requires WellFormed(j) && Printable(j)
    ensures WellFormed(Strip(j)) && Printable(Strip(j))
  {
    match j
    case Arr(xs) =>
      forall i | 0 <= i < |xs| ensures WellFormed(Strip(xs[i])) && Printable(Strip(xs[i])) {
        StripKeepsShape(xs[i]);
      }
    case Obj(ms) =>
      var r := StripMembers(ms);
      StripDistinct(ms);
      forall k | 0 <= k < |r| ensures WellFormed(r[k].value) && Printable(r[k].value) {
        var i := StripFrom(ms, k);
        StripKeepsShape(ms[i].value);
      }
    case _ =>
  }

  lemma {:induction false} StripDecides(x: Json<Number>, y: Json<Number>)
    ensures SameIgnoringSig(x, y) <==> SameUpToOrder(Strip(x), Strip(y))
    decreases x, 1
  {
    match x
    case Arr(xs) =>
      if y.Arr? && |xs| == |y.items| {
        forall i | 0 <= i < |xs|
          ensures SameIgnoringSig(xs[i], y.items[i]) <==> SameUpToOrder(StripItems(xs)[i], StripItems(y.items)[i])
        {
          StripDecides(xs[i], y.items[i]);
        }
      }
    case Obj(ms) => if y.Obj? { StripDecidesMembers(ms, y.members); }
    case _ =>
  }

  lemma {:induction false} StripDecidesMembers(ms: seq<Member<Number>>, ns: seq<Member<Number>>)
    ensures SameIgnoringSig(Obj(ms), Obj(ns)) <==> SameUpToOrder(Obj(StripMembers(ms)), Obj(StripMembers(ns)))
    decreases ms, 0
  {
    forall i, k | 0 <= i < |ms| && 0 <= k < |ns|
      ensures SameIgnoringSig(ms[i].value, ns[k].value) <==> SameUpToOrder(Strip(ms[i].value), Strip(ns[k].value))
    {
      StripDecides(ms[i].value, ns[k].value);
    }
    assert PairwiseDecided(ms, ns);
    if SameIgnoringSig(Obj(ms), Obj(ns)) { UnsignedSame(ms, ns); }
    if SameUpToOrder(Obj(StripMembers(ms)), Obj(StripMembers(ns))) { SameUnsigned(ms, ns); }
  }

  ghost predicate PairwiseDecided(ms: seq<Member<Number>>, ns: seq<Member<Number>>) {
    forall i, k :: 0 <= i < |ms| && 0 <= k < |ns| ==>
      (SameIgnoringSig(ms[i].value, ns[k].value) <==> SameUpToOrder(Strip(ms[i].value), Strip(ns[k].value)))
  }

  lemma UnsignedSame(ms: seq<Member<Number>>, ns: seq<Member<Number>>)
    requires PairwiseDecided(ms, ns) && SameIgnoringSig(Obj(ms), Obj(ns))
    ensures SameUpToOrder(Obj(StripMembers(ms)), Obj(StripMembers(ns)))
  {
    var a, b := StripMembers(ms), StripMembers(ns);
    forall p | 0 <= p < |a| ensures MatchedBy(a[p], b) { UnsignedMatched(ms, ns, p); }
    forall q | 0 <= q < |b| ensures Matches(a, b[q]) { UnsignedMatches(ms, ns, q); }
  }

  lemma SameUnsigned(ms: seq<Member<Number>>, ns: seq<Member<Number>>)
    requires PairwiseDecided(ms, ns) && SameUpToOrder(Obj(StripMembers(ms)), Obj(StripMembers(ns)))
    ensures SameIgnoringSig(Obj(ms), Obj(ns))
  {
    forall i | 0 <= i < |ms| && ms[i].key != SIG ensures UnsignedIn(ms[i], ns) { MatchedUnsigned(ms, ns, i); }
    forall k | 0 <= k < |ns| && ns[k].key != SIG ensures UnsignedOf(ms, ns[k]) { MatchesUnsigned(ms, ns, k); }
  }

  lemma UnsignedMatched(ms: seq<Member<Number>>, ns: seq<Member<Number>>, p: nat)
    requires PairwiseDecided(ms, ns) && SameIgnoringSig(Obj(ms), Obj(ns)) && p < |StripMembers(ms)|
    ensures MatchedBy(StripMembers(ms)[p], StripMembers(ns))
  {
    var i := StripFrom(ms, p);
    assert UnsignedIn(ms[i], ns);
    var k :| 0 <= k < |ns| && ns[k].key == ms[i].key && SameIgnoringSig(ms[i].value, ns[k].value);
    var q := StripTo(ns, k);
    assert SameMember(StripMembers(ms)[p], StripMembers(ns)[q]);
  }

  lemma UnsignedMatches(ms: seq<Member<Number>>, ns: seq<Member<Number>>, q: nat)
    requires PairwiseDecided(ms, ns) && SameIgnoringSig(Obj(ms), Obj(ns)) && q < |StripMembers(ns)|
    ensures Matches(StripMembers(ms), StripMembers(ns)[q])
  {
    var k := StripFrom(ns, q);
    assert UnsignedOf(ms, ns[k]);
    var i :| 0 <= i < |ms| && ms[i].key == ns[k].key && SameIgnoringSig(ms[i].value, ns[k].value);
    var p := StripTo(ms, i);
    assert SameMember(StripMembers(ms)[p], StripMembers(ns)[q]);
  }

  lemma MatchedUnsigned(ms: seq<Member<Number>>, ns: seq<Member<Number>>, i: nat)
    requires PairwiseDecided(ms, ns) && SameUpToOrder(Obj(StripMembers(ms)), Obj(StripMembers(ns)))
    requires i < |ms| && ms[i].key != SIG
    ensures UnsignedIn(ms[i], ns)
  {
    var p := StripTo(ms, i);
    assert MatchedBy(StripMembers(ms)[p], StripMembers(ns));
    var q :| 0 <= q < |StripMembers(ns)| && SameMember(StripMembers(ms)[p], StripMembers(ns)[q]);
    var k := StripFrom(ns, q);
    assert SameIgnoringSig(ms[i].value, ns[k].value);
  }

  lemma MatchesUnsigned(ms: seq<Member<Number>>, ns: seq<Member<Number>>, k: nat)
    requires PairwiseDecided(ms, ns) && SameUpToOrder(Obj(StripMembers(ms)), Obj(StripMembers(ns)))
    requires k < |ns| && ns[k].key != SIG
    ensures UnsignedOf(ms, ns[k])
  {
    var q := StripTo(ns, k);
    assert Matches(StripMembers(ms), StripMembers(ns)[q]);
    var p :| 0 <= p < |StripMembers(ms)| && SameMember(StripMembers(ms)[p], StripMembers(ns)[q]);
    var i := StripFrom(ms, p);
    assert SameIgnoringSig(ms[i].value, ns[k].value);
  }

  /**
   Two messages are signed over the same bytes exactly when they agree after
   every `sig` member is ignored and member order with it.
   */
  lemma CanonicalizeWssIff(x: Json<Number>, y: Json<Number>)
    requires WellFormed(x) && WellFormed(y) && Printable(x) && Printable(y)
    ensures CanonicalizeWss(x) == CanonicalizeWss(y) <==> SameIgnoringSig(x, y)
  {
    StripKeepsShape(x);
    StripKeepsShape(y);
    CanonicalIff(Strip(x), Strip(y));
    StripDecides(x, y);
  }

  /** No object, at any depth, has a member of that name. */
  predicate Without(name: string, j: Json<Number>) {
    match j
    case Arr(xs) => forall i :: 0 <= i < |xs| ==> Without(name, xs[i])
    case Obj(ms) => forall i :: 0 <= i < |ms| ==> ms[i].key != name && Without(name, ms[i].value)
    case _ => true
  }

  lemma {:induction false} StripLeavesNone(j: Json<Number>)
    ensures Without("sig", Strip(j))
  {
    match j
    case Arr(xs) => forall i | 0 <= i < |xs| ensures Without("sig", StripItems(xs)[i]) { StripLeavesNone(xs[i]); }
    case Obj(ms) =>
      var r := StripMembers(ms);
      forall p | 0 <= p < |r| ensures r[p].key != "sig" && Without("sig", r[p].value) {
        var i := StripFrom(ms, p);
        StripLeavesNone(ms[i].value);
      }
    case _ =>
  }

  lemma {:induction false} WithoutSame(name: string, x: Json<Number>, y: Json<Number>)
    requires Without(name, x) && SameUpToOrder(x, y)
    ensures Without(name, y)
  {
    match x
    case Arr(xs) => forall i | 0 <= i < |xs| ensures Without(name, y.items[i]) { WithoutSame(name, xs[i], y.items[i]); }
    case Obj(ms) =>
      var ns := y.members;
      forall k | 0 <= k < |ns| ensures ns[k].key != name && Without(name, ns[k].value) {
        assert Matches(ms, ns[k]);
        var i :| 0 <= i < |ms| && SameMember(ms[i], ns[k]);
        WithoutSame(name, ms[i].value, ns[k].value);
      }
    case _ =>
  }

  /**
   The signed text, read as JSON, is the message without any `sig` member and
   with all keys in byte order.
   */
  lemma SignedTextReads(j: Json<Number>)
    requires WellFormed(j) && Printable(j)
    ensures Read(CanonicalizeWss(j)).Some?
    ensures var t := Read(CanonicalizeWss(j)).value;
            SameUpToOrder(Strip(j), t) && Without("sig", t) && InByteOrder(t)
  {
    StripKeepsShape(j);
    CanonicalReads(Strip(j));
    StripLeavesNone(j);
    WithoutSame("sig", Strip(j), Read(CanonicalizeWss(j)).value);
  }

  /** `msg["sig"] = sig`: replaces the member or adds it. */
  function Attach(ms: seq<Member<Number>>, sig: Json<Number>): seq<Member<Number>> {
    if ms == [] then [Member(SIG, sig)]
    else if ms[0].key == SIG then [Member(SIG, sig)] + ms[1..]
    else [ms[0]] + Attach(ms[1..], sig)
  }

  /** The message then has that signature, and every other member as before. */
  lemma {:induction false} AttachHas(ms: seq<Member<Number>>, sig: Json<Number>, m: Member<Number>)
    requires DistinctKeys(ms)
    ensures m in Attach(ms, sig) <==> if m.key == "sig" then m.value == sig else m in ms
  {
    if ms != [] && ms[0].key != SIG { AttachHas(ms[1..], sig, m); }
  }

  lemma {:induction false} AttachStripped(ms: seq<Member<Number>>, sig: Json<Number>)
    ensures StripMembers(Attach(ms, sig)) == StripMembers(ms)
  {
    if ms != [] && ms[0].key != SIG { AttachStripped(ms[1..], sig); }
  }

  /** The text `SendSigned` signs is the text the receiver recomputes from the signed message. */
  lemma AttachKeepsSignedText(ms: seq<Member<Number>>, sig: Json<Number>)
    ensures CanonicalizeWss(Obj(Attach(ms, sig))) == CanonicalizeWss(Obj(ms))
  {
    AttachStripped(ms, sig);
  }
}
