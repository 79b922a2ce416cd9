/**
 A privileged request from the bytes the agent signs to the bytes the daemon
 verifies.  The agent prints its own tree; the daemon parses it into doubles
 and C strings, blanks the signature, prints, parses again and renders.
 */
module SignedRequest {
  import opened Sequences
  import opened Options
  import opened Json
  import opened CanonicalOrder
  import opened CanonicalText
  import opened CanonicalForm
  import opened Doubles
  import opened Jcs

  const NESTING_LIMIT := 1000

  // The request, as `Execute` builds it

  datatype Fields = Fields(
    requestId: string,
    timestamp: string,
    capability: string,
    params: Json<Number>,
    sequence: int,
    policyHash: string,
    commandId: string,
    kid: string)

  function SigBlock(kid: string, sig: string): Json<Number> {
    Obj([
      Member("alg", Str("Ed25519")),
      Member("canon", Str("JCS-v1")),
      Member("kid", Str(kid)),
      Member("sig", Str(sig)),
      Member("signer", Str("agent"))])
  }

  function Payload(f: Fields, sig: string): Json<Number> {
    Obj([
      Member("agent_sequence", Num(Int(f.sequence))),
      Member("capability", Str(f.capability)),
      Member("command_message_id", Str(f.commandId)),
      Member("params", if f.params.Obj? then f.params else Obj([])),
      Member("policy_hash", Str(f.policyHash)),
      Member("request_id", Str(f.requestId)),
      Member("sig", SigBlock(f.kid, sig)),
      Member("timestamp", Str(f.timestamp))])
  }

  // The agent's side

  predicate IsInt(n: Number) { n.Int? }

  /** `copy["sig"]["sig"] = ""` where `sig` is an object. */
  function Assign(ms: seq<Member<Number>>, key: string, value: Json<Number>): seq<Member<Number>> {
    if ms == [] then [Member(key, value)]
    else if ms[0].key == key then [Member(key, value)] + ms[1..]
    else [ms[0]] + Assign(ms[1..], key, value)
  }

  function Lookup(ms: seq<Member<Number>>, key: string): Json<Number> {
    if ms == [] then Null else if ms[0].key == key then ms[0].value else Lookup(ms[1..], key)
  }

  function AgentBlank(j: Json<Number>): Json<Number> {
    if j.Obj? && Lookup(j.members, "sig").Obj? then
      Obj(Assign(j.members, "sig", Obj(Assign(Lookup(j.members, "sig").members, "sig", Str("")))))
    else j
  }

  /** `StripSigForCanonical`; `None` is the exception `EnsureNoFloats` throws. */
  function AgentCanonical(payload: Json<Number>): Option<string> {
    if AllNumbers(IsInt, AgentBlank(payload)) then Some(Canonical(AgentBlank(payload))) else None
  }

  // The daemon's side

  function CStrings(j: Json<Number>): Json<Number>
    decreases j, 1
  {
    match j
    case Str(s) => Str(CString(s, '\0'))
    case Arr(xs) => Arr(CStringItems(xs))
    case Obj(ms) => Obj(CStringMembers(ms))
    case _ => j
  }

  function CStringItems(xs: seq<Json<Number>>): seq<Json<Number>>
    decreases xs, 0
  {
    if xs == [] then [] else [CStrings(xs[0])] + CStringItems(xs[1..])
  }

  function CStringMembers(ms: seq<Member<Number>>): seq<Member<Number>>
    decreases ms, 0
  {
    if ms == [] then []
    else [Member(CString(ms[0].key, '\0'), CStrings(ms[0].value))] + CStringMembers(ms[1..])
  }

  /** An integer literal as `strtod` reads it; exact up to 2^53. */
  function ToDouble(n: Number): real { if n.Int? then n.n as real else 0.0 }

  /** What the parser accepts with so many brackets open: it counts them, and opens none beyond its limit. */
  predicate Fits<N>(j: Json<N>, open: nat) {
    match j
    case Arr(xs) => open < NESTING_LIMIT && forall i :: 0 <= i < |xs| ==> Fits(xs[i], open + 1)
    case Obj(ms) => open < NESTING_LIMIT && forall i :: 0 <= i < |ms| ==> Fits(ms[i].value, open + 1)
    case _ => true
  }

  /** `cJSON_Parse`. */
  function DaemonParse(wire: Json<Number>): Option<Json<real>> {
    if !Fits(wire, 0) then None else Some(MapNumbers(ToDouble, CStrings(wire)))
  }

  function Lower(c: char): char { if 'A' <= c <= 'Z' then c + 32 as char else c }

  /** Characters match that are equal, or the two forms of one of the letters A to Z. */
  lemma LowerIff(c: char, d: char)
    ensures var m, n := c as int, d as int;
            Lower(c) == Lower(d) <==> m == n || (65 <= m <= 90 && n == m + 32) || (65 <= n <= 90 && m == n + 32)
  {
  }

  predicate SameIgnoringCase(a: string, b: string) {
    |a| == |b| && forall i :: 0 <= i < |a| ==> Lower(a[i]) == Lower(b[i])
  }

  /** `cJSON_GetObjectItem`: the first member whose name matches in any case; `|ms|` if none. */
  function GetItem(ms: seq<Member<real>>, name: string): (i: nat)
    ensures i <= |ms|
    ensures i < |ms| ==> SameIgnoringCase(name, ms[i].key)
    ensures forall k :: 0 <= k < i ==> !SameIgnoringCase(name, ms[k].key)
  {
    if ms == [] || SameIgnoringCase(name, ms[0].key) then 0
    else
      var i := GetItem(ms[1..], name);
      assert forall k :: 1 <= k < i + 1 ==> ms[k] == ms[1..][k - 1];
      i + 1
  }

  /** The signature text blanked in the daemon's copy; only a string can be overwritten. */
  function BlankInner(ss: seq<Member<real>>): seq<Member<real>> {
    var k := GetItem(ss, "sig");
    if k == |ss| then ss + [Member("sig", Str(""))]
    else if ss[k].value.Str? then ss[k := Member(ss[k].key, Str(""))]
    else ss
  }

  function DaemonBlank(root: Json<real>): Json<real> {
    if !root.Obj? then root
    else
      var k := GetItem(root.members, "sig");
      if k < |root.members| && root.members[k].value.Obj? then
        Obj(root.members[k := Member(root.members[k].key, Obj(BlankInner(root.members[k].value.members)))])
      else root
  }

  /** A double after it was printed and read back; modelled for integers up to 2^53. */
  function ReprintDouble(v: real): real {
    if v == v.Floor as real && Abs(v.Floor) <= TWO53 then Reprint(v.Floor) as real else v
  }

  /** `canonicalize_without_sig`. */
  function DaemonCanonical(root: Json<real>): Option<string> {
    var printed := MapNumbers(ReprintDouble, DaemonBlank(root));
    if Fits(printed, 0) && Renders(printed) then Some(Rendering(printed)) else None
  }

  /** The text the daemon verifies a request on the wire against. */
  function DaemonText(wire: Json<Number>): Option<string> {
    match DaemonParse(wire)
    case None => None
    case Some(root) => DaemonCanonical(root)
  }

  // Trees whose strings C can hold

  predicate NulFree(s: string) { '\0' !in s }

  predicate NulFreeTree(j: Json<Number>) {
    match j
    case Str(s) => NulFree(s)
    case Arr(xs) => forall i :: 0 <= i < |xs| ==> NulFreeTree(xs[i])
    case Obj(ms) => forall i :: 0 <= i < |ms| ==> NulFree(ms[i].key) && NulFreeTree(ms[i].value)
    case _ => true
  }

  lemma {:induction false} CStringsNulFree(j: Json<Number>)
    requires NulFreeTree(j)
    ensures CStrings(j) == j
    decreases j, 1
  {
    match j
    case Str(s) => CStringWhole(s, '\0');
    case Arr(xs) => CStringItemsNulFree(xs);
    case Obj(ms) => CStringMembersNulFree(ms);
    case _ =>
  }

  lemma {:induction false} CStringItemsNulFree(xs: seq<Json<Number>>)
    requires forall i :: 0 <= i < |xs| ==> NulFreeTree(xs[i])
    ensures CStringItems(xs) == xs
    decreases xs, 0
  {
    if xs != [] {
      CStringsNulFree(xs[0]);
      CStringItemsNulFree(xs[1..]);
    }
  }

  lemma {:induction false} CStringMembersNulFree(ms: seq<Member<Number>>)
    requires forall i :: 0 <= i < |ms| ==> NulFree(ms[i].key) && NulFreeTree(ms[i].value)
    ensures CStringMembers(ms) == ms
    decreases ms, 0
  {
    if ms != [] {
      CStringWhole(ms[0].key, '\0');
      CStringsNulFree(ms[0].value);
      CStringMembersNulFree(ms[1..]);
    }
  }

  // Both sides blank the request to the same tree

  lemma AgentBlanks(f: Fields, sig: string)
    ensures AgentBlank(Payload(f, sig)) == Payload(f, "")
  {
    var ms := Payload(f, sig).members;
    var ss := SigBlock(f.kid, sig).members;
    SkipTo(ss, 3, "sig");
    SkipTo(ms, 6, "sig");
    AssignAt(ss, 3, "sig", Str(""));
    AssignAt(ms, 6, "sig", SigBlock(f.kid, ""));
    assert ss[3 := Member("sig", Str(""))] == SigBlock(f.kid, "").members;
    assert ms[6 := Member("sig", SigBlock(f.kid, ""))] == Payload(f, "").members;
  }

  lemma {:induction false} SkipTo(ms: seq<Member<Number>>, k: nat, key: string)
    requires k < |ms| && ms[k].key == key && forall i :: 0 <= i < k ==> ms[i].key != key
    ensures Lookup(ms, key) == ms[k].value
  {
    if k > 0 { SkipTo(ms[1..], k - 1, key); }
  }

  lemma {:induction false} AssignAt(ms: seq<Member<Number>>, k: nat, key: string, value: Json<Number>)
    requires k < |ms| && ms[k].key == key && forall i :: 0 <= i < k ==> ms[i].key != key
    ensures Assign(ms, key, value) == ms[k := Member(key, value)]
  {
    if k > 0 { AssignAt(ms[1..], k - 1, key, value); }
  }

  /** No other member name of a request matches `sig` in any case. */
  lemma SigName()
    ensures SameIgnoringCase("sig", "sig")
    ensures !SameIgnoringCase("sig", "alg") && !SameIgnoringCase("sig", "kid")
  {
    assert Lower("sig"[0]) != Lower("alg"[0]) && Lower("sig"[0]) != Lower("kid"[0]);
  }

  lemma GetItemAt(ms: seq<Member<real>>, k: nat, name: string)
    requires k < |ms| && SameIgnoringCase(name, ms[k].key)
    requires forall i :: 0 <= i < k ==> !SameIgnoringCase(name, ms[i].key)
    ensures GetItem(ms, name) == k
  {
  }

  function DoubleMembers(ms: seq<Member<Number>>): seq<Member<real>> { MapMembers(ToDouble, ms) }

  lemma InnerBlank(ss: seq<Member<real>>, sig: string)
    requires |ss| == 5 && ss[0].key == "alg" && |ss[1].key| > 3
    requires ss[2].key == "kid" && ss[3] == Member("sig", Str(sig))
    ensures BlankInner(ss) == ss[3 := Member("sig", Str(""))]
  {
    SigName();
    GetItemAt(ss, 3, "sig");
  }

  lemma SigBlockBlanks(kid: string, sig: string)
    ensures BlankInner(DoubleMembers(SigBlock(kid, sig).members)) == DoubleMembers(SigBlock(kid, "").members)
  {
    var ss := DoubleMembers(SigBlock(kid, sig).members);
    InnerBlank(ss, sig);
    assert ss[3 := Member("sig", Str(""))] == DoubleMembers(SigBlock(kid, "").members);
  }

  /** Where the signature block sits in a request. */
  lemma PayloadShape(f: Fields, sig: string)
    ensures var ms := Payload(f, sig).members;
            && |ms| == 8 && ms[6] == Member("sig", SigBlock(f.kid, sig))
            && (forall i :: 0 <= i < 6 ==> |ms[i].key| > 3)
            && Payload(f, "").members == ms[6 := Member("sig", SigBlock(f.kid, ""))]
  {
  }

  lemma MembersBlank(ms: seq<Member<Number>>, kid: string, sig: string)
    requires |ms| == 8 && ms[6] == Member("sig", SigBlock(kid, sig))
    requires forall i :: 0 <= i < 6 ==> |ms[i].key| > 3
    ensures DaemonBlank(Obj(DoubleMembers(ms))) == Obj(DoubleMembers(ms[6 := Member("sig", SigBlock(kid, ""))]))
  {
    var ds := DoubleMembers(ms);
    SigName();
    SigBlockBlanks(kid, sig);
    GetItemAt(ds, 6, "sig");
    var ds' := ds[6 := Member("sig", Obj(DoubleMembers(SigBlock(kid, "").members)))];
    assert ds' == DoubleMembers(ms[6 := Member("sig", SigBlock(kid, ""))]);
  }

  lemma DaemonBlanks(f: Fields, sig: string)
    ensures DaemonBlank(MapNumbers(ToDouble, Payload(f, sig))) == MapNumbers(ToDouble, Payload(f, ""))
  {
    PayloadShape(f, sig);
    MembersBlank(Payload(f, sig).members, f.kid, sig);
  }

  /** In any object the daemon blanks at most one member, a `sig` in some spelling, and keeps its name. */
  lemma DaemonBlankKeeps(ms: seq<Member<real>>, i: nat)
    requires i < |ms|
    ensures var r := DaemonBlank(Obj(ms)).members;
            && |r| == |ms| && r[i].key == ms[i].key
            && (r[i] != ms[i] ==> i == GetItem(ms, "sig") && ms[i].value.Obj? && r[i].value.Obj?)
  {
  }

  /** A signature that is looked up after blanking is empty, unless it was something other than a string. */
  lemma BlankedEmpty(ss: seq<Member<real>>)
    ensures var i, r := GetItem(ss, "sig"), BlankInner(ss);
            var k := GetItem(r, "sig");
            k < |r| && (i == |ss| || ss[i].value.Str? ==> r[k].value == Str(""))
  {
    var i, r := GetItem(ss, "sig"), BlankInner(ss);
    SigName();
    GetItemAt(r, i, "sig");
  }

  // Open brackets and depth

  lemma {:induction false} ItemsDepthBound<N>(xs: seq<Json<N>>, n: nat)
    ensures ItemsDepth(xs) <= n <==> forall i :: 0 <= i < |xs| ==> Depth(xs[i]) <= n
  {
    if xs != [] {
      ItemsDepthBound(xs[1..], n);
      assert forall i :: 0 < i < |xs| ==> xs[i] == xs[1..][i - 1];
    }
  }

  lemma {:induction false} MembersDepthBound<N>(ms: seq<Member<N>>, n: nat)
    ensures MembersDepth(ms) <= n <==> forall i :: 0 <= i < |ms| ==> Depth(ms[i].value) <= n
  {
    if ms != [] {
      MembersDepthBound(ms[1..], n);
      assert forall i :: 0 < i < |ms| ==> ms[i] == ms[1..][i - 1];
    }
  }

  /** A tree fits exactly if its depth and the brackets already open stay within the limit. */
  lemma {:induction false} FitsIff<N>(j: Json<N>, open: nat)
    requires open <= NESTING_LIMIT
    ensures Fits(j, open) <==> open + Depth(j) <= 1000
  {
    match j
    case Arr(xs) =>
      if open < NESTING_LIMIT {
        forall i | 0 <= i < |xs| ensures Fits(xs[i], open + 1) <==> Depth(xs[i]) <= 999 - open {
          FitsIff(xs[i], open + 1);
        }
        ItemsDepthBound(xs, 999 - open);
      }
    case Obj(ms) =>
      if open < NESTING_LIMIT {
        forall i | 0 <= i < |ms| ensures Fits(ms[i].value, open + 1) <==> Depth(ms[i].value) <= 999 - open {
          FitsIff(ms[i].value, open + 1);
        }
        MembersDepthBound(ms, 999 - open);
      }
    case _ =>
  }

  // Depth does not see numbers, and the signature text adds none

  lemma {:induction false} DepthMap<A, B>(f: A -> B, j: Json<A>)
    ensures Depth(MapNumbers(f, j)) == Depth(j)
    decreases j, 1
  {
    match j
    case Arr(xs) => ItemsDepthMap(f, xs);
    case Obj(ms) => MembersDepthMap(f, ms);
    case _ =>
  }

  lemma {:induction false} ItemsDepthMap<A, B>(f: A -> B, xs: seq<Json<A>>)
    ensures ItemsDepth(MapItems(f, xs)) == ItemsDepth(xs)
    decreases xs, 0
  {
    if xs != [] {
      DepthMap(f, xs[0]);
      ItemsDepthMap(f, xs[1..]);
      assert MapItems(f, xs)[1..] == MapItems(f, xs[1..]);
    }
  }

  lemma {:induction false} MembersDepthMap<A, B>(f: A -> B, ms: seq<Member<A>>)
    ensures MembersDepth(MapMembers(f, ms)) == MembersDepth(ms)
    decreases ms, 0
  {
    if ms != [] {
      DepthMap(f, ms[0].value);
      MembersDepthMap(f, ms[1..]);
      assert MapMembers(f, ms)[1..] == MapMembers(f, ms[1..]);
    }
  }

  lemma {:induction false} MembersDepthUpdate(ms: seq<Member<Number>>, k: nat, m: Member<Number>)
    requires k < |ms| && Depth(m.value) == Depth(ms[k].value)
    ensures MembersDepth(ms[k := m]) == MembersDepth(ms)
  {
    if k == 0 {
      assert ms[k := m][1..] == ms[1..];
    } else {
      MembersDepthUpdate(ms[1..], k - 1, m);
      assert ms[k := m][1..] == ms[1..][k - 1 := m];
    }
  }

  lemma PayloadDepth(f: Fields, sig: string)
    ensures Depth(Payload(f, sig)) == Depth(Payload(f, ""))
  {
    PayloadShape(f, sig);
    SigBlockDepth(f.kid, sig);
    MembersDepthUpdate(Payload(f, sig).members, 6, Member("sig", SigBlock(f.kid, "")));
  }

  lemma SigBlockDepth(kid: string, sig: string)
    ensures Depth(SigBlock(kid, sig)) == Depth(SigBlock(kid, ""))
  {
    var ss := SigBlock(kid, "").members;
    MembersDepthUpdate(ss, 3, Member("sig", Str(sig)));
    assert ss[3 := Member("sig", Str(sig))] == SigBlock(kid, sig).members;
  }

  // The main result

  predicate Within53(n: Number) { n.Int? && Abs(n.n) <= TWO53 }

  predicate SafeNumber(n: Number) { n.Int? && Safe(n.n) }

  /** One of the agent's integers as the daemon holds it when it renders. */
  function Stored(n: Number): real { ReprintDouble(ToDouble(n)) }

  /** What the daemon prints for it. */
  function DaemonNumber(n: Number): Number { Integer(Stored(n)) }

  lemma {:induction false} AllNumbersMap<A, B>(f: A -> B, p: B -> bool, q: A -> bool, j: Json<A>)
    requires forall n :: q(n) <==> p(f(n))
    ensures AllNumbers(p, MapNumbers(f, j)) <==> AllNumbers(q, j)
  {
    match j
    case Arr(xs) =>
      forall i | 0 <= i < |xs| ensures AllNumbers(p, MapItems(f, xs)[i]) <==> AllNumbers(q, xs[i]) {
        AllNumbersMap(f, p, q, xs[i]);
      }
    case Obj(ms) =>
      forall i | 0 <= i < |ms| ensures AllNumbers(p, MapMembers(f, ms)[i].value) <==> AllNumbers(q, ms[i].value) {
        AllNumbersMap(f, p, q, ms[i].value);
      }
    case _ =>
  }

  /** For integers within 2^53 the daemon's number is the agent's exactly when it is safe. */
  lemma DaemonNumberIs(n: Number)
    requires Within53(n)
    ensures Renderable(Stored(n)) && DaemonNumber(n) == n <==> SafeNumber(n)
  {
    assert (n.n as real).Floor == n.n;
    DaemonInteger(n.n);
  }

  predicate DaemonAccepts(n: Number) { Renderable(Stored(n)) }

  lemma DaemonTreeIs(p: Json<Number>)
    ensures var printed := MapNumbers(ReprintDouble, MapNumbers(ToDouble, p));
            && (Fits(printed, 0) <==> Depth(p) <= NESTING_LIMIT)
            && (Renders(printed) <==> AllNumbers(DaemonAccepts, p))
            && Rendering(printed) == Canonical(MapNumbers(DaemonNumber, p))
  {
    DepthMap(Stored, p);
    FitsIff(MapNumbers(Stored, p), 0);
    MapCompose(ToDouble, ReprintDouble, Stored, p);
    AllNumbersMap(Stored, Renderable, DaemonAccepts, p);
    MapCompose(Stored, Integer, DaemonNumber, p);
  }

  /** The daemon's text of a request, in terms of the agent's tree. */
  lemma DaemonTextIs(f: Fields, sig: string)
    requires NulFreeTree(Payload(f, sig))
    ensures var p := Payload(f, "");
            DaemonText(Payload(f, sig)) ==
              if Depth(p) <= NESTING_LIMIT && AllNumbers(DaemonAccepts, p)
              then Some(Canonical(MapNumbers(DaemonNumber, p))) else None
  {
    CStringsNulFree(Payload(f, sig));
    FitsIff(Payload(f, sig), 0);
    PayloadDepth(f, sig);
    DaemonBlanks(f, sig);
    DaemonTreeIs(Payload(f, ""));
  }

  lemma {:induction false} AllNumbersAnd<N(!new)>(p: N -> bool, q: N -> bool, r: N -> bool, j: Json<N>)
    requires forall n :: r(n) <==> p(n) && q(n)
    ensures AllNumbers(r, j) <==> AllNumbers(p, j) && AllNumbers(q, j)
  {
    match j
    case Arr(xs) => forall i | 0 <= i < |xs| { AllNumbersAnd(p, q, r, xs[i]); }
    case Obj(ms) => forall i | 0 <= i < |ms| { AllNumbersAnd(p, q, r, ms[i].value); }
    case _ =>
  }

  lemma {:induction false} AllNumbersWhere<N(!new)>(p: N -> bool, q: N -> bool, w: N -> bool, j: Json<N>)
    requires AllNumbers(w, j) && forall n :: w(n) ==> (p(n) <==> q(n))
    ensures AllNumbers(p, j) <==> AllNumbers(q, j)
  {
    match j
    case Arr(xs) => forall i | 0 <= i < |xs| { AllNumbersWhere(p, q, w, xs[i]); }
    case Obj(ms) => forall i | 0 <= i < |ms| { AllNumbersWhere(p, q, w, ms[i].value); }
    case _ =>
  }

  /** Renaming every number gives the same canonical text exactly when it renames none of them. */
  lemma CanonicalRenamed(g: Number -> Number, same: Number -> bool, j: Json<Number>)
    requires forall n :: g(n).Int?
    requires forall n :: same(n) <==> g(n) == n
    requires Printable(j)
    ensures Canonical(MapNumbers(g, j)) == Canonical(j) <==> AllNumbers(same, j)
  {
    var c := Canon(j);
    CanonMapNumbers(g, j);
    MapFixes(g, same, c);
    CanonAllNumbers(same, j);
    CanonAllNumbers(ValidNumber, j);
    MapPrintable(g, c);
    if Text(MapNumbers(g, c)) == Text(c) { TextInjective(MapNumbers(g, c), c); }
  }

  predicate KeptNumber(n: Number) { DaemonNumber(n) == n }

  predicate RenderedAlike(n: Number) { DaemonAccepts(n) && KeptNumber(n) }

  /** The daemon prints a tree of such integers the agent's way exactly when all of them are safe. */
  lemma DaemonPrintsAlike(p: Json<Number>)
    requires AllNumbers(Within53, p)
    ensures AllNumbers(DaemonAccepts, p) && Canonical(MapNumbers(DaemonNumber, p)) == Canonical(p) <==>
              AllNumbers(SafeNumber, p)
  {
    AllNumbersImplies(Within53, ValidNumber, p);
    CanonicalRenamed(DaemonNumber, KeptNumber, p);
    AllNumbersAnd(DaemonAccepts, KeptNumber, RenderedAlike, p);
    forall n | Within53(n) ensures RenderedAlike(n) <==> SafeNumber(n) { DaemonNumberIs(n); }
    AllNumbersWhere(RenderedAlike, SafeNumber, Within53, p);
  }

  /**
   For every request `Execute` can build from NUL-free strings and integers
   within 2^53, the daemon recomputes exactly the bytes the agent signed if and
   only if the request nests at most a thousand deep and every integer is at
   most 2^52 in magnitude, or even and below 2^53.
   */
  lemma SameBytes(f: Fields, sig: string)
    requires NulFreeTree(Payload(f, sig)) && AllNumbers(Within53, Payload(f, ""))
    ensures AgentCanonical(Payload(f, sig)) == Some(Canonical(Payload(f, "")))
    ensures DaemonText(Payload(f, sig)) == AgentCanonical(Payload(f, sig)) <==>
              Depth(Payload(f, sig)) <= NESTING_LIMIT && AllNumbers(SafeNumber, Payload(f, ""))
  {
    var p := Payload(f, "");
    AgentBlanks(f, sig);
    PayloadDepth(f, sig);
    AllNumbersImplies(Within53, IsInt, p);
    DaemonTextIs(f, sig);
    DaemonPrintsAlike(p);
  }

  /**
   With signatures that verify exactly the text they were made for, an
   untouched request passes verification if and only if `SameBytes` holds of it.
   */
  lemma UntouchedRequestVerifies(f: Fields, sign: string -> string, verify: (string, string) -> bool)
    requires forall m, t :: verify(t, sign(m)) <==> t == m
    requires var sig := sign(Canonical(Payload(f, "")));
             NulFreeTree(Payload(f, sig)) && AllNumbers(Within53, Payload(f, ""))
    ensures var sig := sign(Canonical(Payload(f, "")));
            var text := DaemonText(Payload(f, sig));
            text.Some? && verify(text.value, sig) <==>
              Depth(Payload(f, sig)) <= NESTING_LIMIT && AllNumbers(SafeNumber, Payload(f, ""))
  {
    SameBytes(f, sign(Canonical(Payload(f, ""))));
  }

  function RequestWith(n: int): Fields {
    Fields("r", "t", "c", Obj([Member("n", Num(Int(n)))]), 1, "h", "m", "k")
  }

  /** Two parameters an agent can send whose untouched request the daemon refuses. */
  lemma UnsafeRequests(sig: string)
    requires NulFree(sig)
    ensures DaemonText(Payload(RequestWith(TWO52 + 1), sig)) != AgentCanonical(Payload(RequestWith(TWO52 + 1), sig))
    ensures DaemonText(Payload(RequestWith(TWO53 - 1), sig)) != AgentCanonical(Payload(RequestWith(TWO53 - 1), sig))
  {
    UnsafeParameter(TWO52 + 1, sig);
    UnsafeParameter(TWO53 - 1, sig);
  }

  /** The numbers of a request are its sequence and those of its parameters. */
  lemma PayloadNumbers(p: Number -> bool, f: Fields, sig: string)
    ensures AllNumbers(p, Payload(f, sig)) <==> p(Int(f.sequence)) && (f.params.Obj? ==> AllNumbers(p, f.params))
  {
    var ms := Payload(f, sig).members;
    assert ms[0].value == Num(Int(f.sequence));
    assert ms[3].value == if f.params.Obj? then f.params else Obj([]);
    assert AllNumbers(p, SigBlock(f.kid, sig));
  }

  /** The agent signs a request exactly if its parameters hold no float. */
  lemma AgentSignsIff(f: Fields, sig: string)
    ensures AgentCanonical(Payload(f, sig))
            == if !f.params.Obj? || AllNumbers(IsInt, f.params) then Some(Canonical(Payload(f, ""))) else None
  {
    AgentBlanks(f, sig);
    PayloadNumbers(IsInt, f, "");
  }

  lemma PayloadNulFree(f: Fields, sig: string)
    requires NulFree(sig) && NulFree(f.requestId) && NulFree(f.timestamp) && NulFree(f.capability)
    requires NulFree(f.policyHash) && NulFree(f.commandId) && NulFree(f.kid) && NulFreeTree(f.params)
    ensures NulFreeTree(Payload(f, sig))
  {
    SigBlockNulFree(f.kid, sig);
    var ms := Payload(f, sig).members;
    LongNames();
    assert NulFreeTree(ms[6].value);
  }

  lemma LongNames()
    ensures NulFree("agent_sequence") && NulFree("command_message_id") && NulFree("capability")
    ensures NulFree("policy_hash") && NulFree("request_id") && NulFree("timestamp")
  {
  }

  lemma SigBlockNulFree(kid: string, sig: string)
    requires NulFree(kid) && NulFree(sig)
    ensures NulFreeTree(SigBlock(kid, sig))
  {
  }

  lemma UnsafeParameter(n: int, sig: string)
    requires NulFree(sig) && Abs(n) <= TWO53 && !Safe(n)
    ensures DaemonText(Payload(RequestWith(n), sig)) != AgentCanonical(Payload(RequestWith(n), sig))
  {
    var f := RequestWith(n);
    assert AllNumbers(Within53, f.params);
    assert !AllNumbers(SafeNumber, f.params) by { assert f.params.members[0].value == Num(Int(n)); }
    PayloadNumbers(Within53, f, "");
    PayloadNumbers(SafeNumber, f, "");
    PayloadNulFree(f, sig);
    SameBytes(f, sig);
  }
}
