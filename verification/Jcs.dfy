/**
 The daemon's canonicaliser: a growable buffer and the mutually recursive
 renderers that append to it, over the double-valued trees cJSON produces.
 */
module Jcs {
  import opened Sequences
  import opened Json
  import opened CanonicalOrder
  import opened CanonicalText
  import opened CanonicalForm
  import opened Doubles

  const INITIAL_CAPACITY := 256

  /** `b` is `a` doubled some number of times. */
  ghost predicate Doubling(a: nat, b: nat)
    decreases b
  {
    a == b || (b % 2 == 0 && 0 < b / 2 && Doubling(a, b / 2))
  }

  /** `sbuf_t`: the text is `data[..len]`, and a zero byte follows it once anything was appended. */
  class Buffer {
    var data: array<char>
    var len: nat

    ghost predicate Valid()
      reads this, data
    {
      if data.Length == 0 then len == 0 else len < data.Length && data[len] == '\0'
    }

    ghost function Contents(): string
      requires Valid()
      reads this, data
    {
      data[..len]
    }

    constructor ()
      ensures Valid() && Contents() == "" && fresh(data)
    {
      data := new char[0];
      len := 0;
    }

    /**
     Makes room for `extra` characters and a terminator.  The capacity only
     changes when it must, and then by the fewest doublings that suffice.
     */
    method Grow(extra: nat)
      requires Valid()
      modifies this
      ensures Valid() && len == old(len) && Contents() == old(Contents())
      ensures len + extra + 1 <= data.Length
      ensures data == old(data) || fresh(data)
      ensures old(len + extra + 1 <= data.Length) ==> data == old(data)
      ensures old(data.Length < len + extra + 1) ==>
                var base := if old(data.Length) == 0 then INITIAL_CAPACITY else 2 * old(data.Length);
                Doubling(base, data.Length) && (data.Length == base || data.Length / 2 < len + extra + 1)
    {
      if len + extra + 1 <= data.Length { return; }
      var next := if data.Length != 0 then data.Length * 2 else INITIAL_CAPACITY;
      ghost var base := next;
      while next < len + extra + 1
        invariant 0 < next && Doubling(base, next)
        invariant next == base || next / 2 < len + extra + 1
        decreases len + extra + 1 - next
      {
        next := next * 2;
        assert next / 2 * 2 == next;
      }
      var tmp := new char[next];
      forall i | 0 <= i < len { tmp[i] := data[i]; }
      tmp[len] := '\0';
      data := tmp;
    }

    method Append(text: string)
      requires Valid()
      modifies this, data
      ensures Valid() && Contents() == old(Contents()) + text
      ensures data == old(data) || fresh(data)
    {
      Grow(|text|);
      forall i | 0 <= i < |text| { data[len + i] := text[i]; }
      len := len + |text|;
      data[len] := '\0';
    }
  }

  // What the renderers compute

  function Integer(v: real): Number { Int(Rounded(v)) }

  predicate Renders(j: Json<real>) { AllNumbers(Renderable, j) }

  function Rendering(j: Json<real>): string { Canonical(MapNumbers(Integer, j)) }

  function RenderingMember(m: Member<real>): string { Quote(m.key) + ":" + Rendering(m.value) }

  function ItemParts(xs: seq<Json<real>>): (parts: seq<string>)
    ensures |parts| == |xs| && forall i :: 0 <= i < |xs| ==> parts[i] == Rendering(xs[i])
  {
    seq(|xs|, i requires 0 <= i < |xs| => Rendering(xs[i]))
  }

  lemma RenderingArr(before: string, xs: seq<Json<real>>)
    ensures before + "[" + Join(ItemParts(xs)) + "]" == before + Rendering(Arr(xs))
  {
    ItemsJoin(CanonItems(MapItems(Integer, xs)), ItemParts(xs));
    Flatten(before, "[", Join(ItemParts(xs)), "]");
  }

  lemma Flatten(a: string, b: string, c: string, d: string)
    ensures a + b + c + d == a + (b + (c + d)) == a + (b + c + d)
  {
  }

  function Parts(ms: seq<Member<real>>): (parts: seq<string>)
    ensures |parts| == |ms| && forall i :: 0 <= i < |ms| ==> parts[i] == RenderingMember(ms[i])
  {
    seq(|ms|, i requires 0 <= i < |ms| => RenderingMember(ms[i]))
  }

  lemma SortedFirst(ms: seq<Member<real>>)
    ensures Canon(Obj(MapMembers(Integer, ms))) == Obj(CanonMembers(MapMembers(Integer, Sort(ms))))
  {
    SortMapMembers(Integer, ms);
    SortCanonMembers(MapMembers(Integer, ms));
  }

  lemma ObjectText(ms: seq<Member<real>>)
    ensures Rendering(Obj(ms)) == "{" + Join(Parts(Sort(ms))) + "}"
  {
    SortedFirst(ms);
    MembersJoin(CanonMembers(MapMembers(Integer, Sort(ms))), Parts(Sort(ms)));
  }

  lemma RenderingObj(before: string, ms: seq<Member<real>>)
    ensures before + "{" + Join(Parts(Sort(ms))) + "}" == before + Rendering(Obj(ms))
  {
    ObjectText(ms);
    Flatten(before, "{", Join(Parts(Sort(ms))), "}");
  }

  // Failure, counted from the left as the loops meet it

  predicate RendersUpTo(xs: seq<Json<real>>, i: nat)
    requires i <= |xs|
  {
    i == 0 || (RendersUpTo(xs, i - 1) && Renders(xs[i - 1]))
  }

  lemma {:induction false} RendersArr(xs: seq<Json<real>>, i: nat)
    requires i <= |xs|
    ensures RendersUpTo(xs, i) <==> forall k :: 0 <= k < i ==> Renders(xs[k])
  {
    if i > 0 { RendersArr(xs, i - 1); }
  }

  function Values(ms: seq<Member<real>>): (xs: seq<Json<real>>)
    ensures |xs| == |ms| && forall i :: 0 <= i < |ms| ==> xs[i] == ms[i].value
  {
    seq(|ms|, i requires 0 <= i < |ms| => ms[i].value)
  }

  lemma RendersObj(ms: seq<Member<real>>)
    ensures Renders(Obj(ms)) <==> RendersUpTo(Values(Sort(ms)), |Sort(ms)|)
  {
    var items := Sort(ms);
    var xs := Values(items);
    RendersArr(xs, |items|);
    if Renders(Obj(ms)) {
      forall i | 0 <= i < |items| ensures Renders(xs[i]) {
        SortedFrom(ms, i);
        var k :| 0 <= k < |ms| && items[i] == ms[k];
      }
    }
    if RendersUpTo(xs, |items|) {
      forall k | 0 <= k < |ms| ensures Renders(ms[k].value) {
        SortedTo(ms, k);
        var i :| 0 <= i < |items| && items[i] == ms[k];
        assert Renders(xs[i]);
      }
    }
  }

  lemma {:induction false} FailsUpTo(xs: seq<Json<real>>, i: nat)
    requires i < |xs| && !Renders(xs[i])
    ensures !RendersUpTo(xs, |xs|)
  {
    RendersArr(xs, |xs|);
  }

  /**
   Over the trees that render, the texts are equal exactly when the trees are
   equal up to member order once every number is rounded to its integer.
   */
  lemma RenderingIff(x: Json<real>, y: Json<real>)
    requires WellFormed(x) && WellFormed(y)
    ensures Rendering(x) == Rendering(y) <==> SameUpToOrder(MapNumbers(Integer, x), MapNumbers(Integer, y))
  {
    MapWellFormed(Integer, x);
    MapWellFormed(Integer, y);
    MapPrintable(Integer, x);
    MapPrintable(Integer, y);
    CanonicalIff(MapNumbers(Integer, x), MapNumbers(Integer, y));
  }

  /** An integer within 2^53 that `render_number` accepts. */
  predicate Accepted(v: real) { v == v.Floor as real && Abs(v.Floor) <= TWO53 && Renderable(v) }

  function ToReal(n: Number): real { if n.Int? then n.n as real else 0.0 }

  function Rewritten(v: real): real { ToReal(Integer(v)) }

  predicate Unchanged(v: real) { Rewritten(v) == v }

  lemma RewrittenTree(x: Json<real>)
    requires AllNumbers(Accepted, x)
    ensures MapNumbers(ToReal, MapNumbers(Integer, x)) == x
  {
    forall v: real ensures Accepted(v) ==> Unchanged(v) {
      if Accepted(v) { RenderInteger(v.Floor); }
    }
    AllNumbersImplies(Accepted, Unchanged, x);
    MapCompose(Integer, ToReal, Rewritten, x);
    MapFixes(Rewritten, Unchanged, x);
  }

  /** On trees of acceptable integers the text decides equality up to member order. */
  lemma IntegerRenderingIff(x: Json<real>, y: Json<real>)
    requires WellFormed(x) && WellFormed(y) && AllNumbers(Accepted, x) && AllNumbers(Accepted, y)
    ensures Rendering(x) == Rendering(y) <==> SameUpToOrder(x, y)
  {
    RenderingIff(x, y);
    if SameUpToOrder(x, y) {
      MapSame(Integer, x, y);
    } else if Rendering(x) == Rendering(y) {
      MapSame(ToReal, MapNumbers(Integer, x), MapNumbers(Integer, y));
      RewrittenTree(x);
      RewrittenTree(y);
    }
  }

  /**
   The rendered text, read as JSON, is the tree with rounded numbers but for the
   order of members, with all keys in byte order; trees of acceptable integers
   come back as they were.
   */
  lemma RenderingReads(x: Json<real>)
    requires WellFormed(x)
    ensures Read(Rendering(x)).Some?
    ensures var t := Read(Rendering(x)).value;
            && SameUpToOrder(MapNumbers(Integer, x), t)
            && InByteOrder(t)
            && (AllNumbers(Accepted, x) ==> SameUpToOrder(x, MapNumbers(ToReal, t)))
  {
    MapWellFormed(Integer, x);
    MapPrintable(Integer, x);
    CanonicalReads(MapNumbers(Integer, x));
    if AllNumbers(Accepted, x) {
      MapSame(ToReal, MapNumbers(Integer, x), Read(Rendering(x)).value);
      RewrittenTree(x);
    }
  }

  lemma {:induction false} MapWellFormed<A>(f: A -> Number, j: Json<A>)
    requires WellFormed(j)
    ensures WellFormed(MapNumbers(f, j))
  {
    match j
    case Arr(xs) => forall i | 0 <= i < |xs| { MapWellFormed(f, xs[i]); }
    case Obj(ms) => forall i | 0 <= i < |ms| { MapWellFormed(f, ms[i].value); }
    case _ =>
  }

  lemma {:induction false} MapPrintable<A(!new)>(f: A -> Number, j: Json<A>)
    requires forall n :: f(n).Int?
    ensures Printable(MapNumbers(f, j))
  {
    match j
    case Arr(xs) => forall i | 0 <= i < |xs| { MapPrintable(f, xs[i]); }
    case Obj(ms) => forall i | 0 <= i < |ms| { MapPrintable(f, ms[i].value); }
    case _ =>
  }

  // The renderers

  method AppendEscaped(buf: Buffer, ch: char)
    requires buf.Valid()
    modifies buf, buf.data
    ensures buf.Valid() && buf.Contents() == old(buf.Contents()) + Escape(ch)
    ensures buf.data == old(buf.data) || fresh(buf.data)
  {
    match ch {
      case '\"' => buf.Append("\\\"");
      case '\\' => buf.Append("\\\\");
      case '\U{08}' => buf.Append("\\b");
      case '\U{0C}' => buf.Append("\\f");
      case '\n' => buf.Append("\\n");
      case '\r' => buf.Append("\\r");
      case '\t' => buf.Append("\\t");
      case _ =>
        if ch < ' ' {
          buf.Append("\\u00" + [HexDigit(ch as int / 16), HexDigit(ch as int % 16)]);
        } else {
          buf.Append([ch]);
        }
    }
  }

  method AppendJsonString(buf: Buffer, value: string)
    requires buf.Valid()
    modifies buf, buf.data
    ensures buf.Valid() && buf.Contents() == old(buf.Contents()) + Quote(value)
    ensures buf.data == old(buf.data) || fresh(buf.data)
  {
    ghost var start := buf.Contents();
    buf.Append("\"");
    for i := 0 to |value|
      invariant buf.Valid() && buf.Contents() == start + ("\"" + EscapeAll(value[..i]))
      invariant buf.data == old(buf.data) || fresh(buf.data)
    {
      AppendEscaped(buf, value[i]);
      EscapeStep(start, value, i);
    }
    assert value[..|value|] == value;
    buf.Append("\"");
  }

  lemma EscapeStep(start: string, value: string, i: nat)
    requires i < |value|
    ensures start + ("\"" + EscapeAll(value[..i])) + Escape(value[i]) == start + ("\"" + EscapeAll(value[..i + 1]))
  {
    EscapeSnoc(value[..i], value[i]);
    assert value[..i + 1] == value[..i] + [value[i]];
    Assoc(start, "\"" + EscapeAll(value[..i]), Escape(value[i]));
    Assoc("\"", EscapeAll(value[..i]), Escape(value[i]));
  }

  method RenderNumber(buf: Buffer, v: real) returns (ok: bool)
    requires buf.Valid()
    modifies buf, buf.data
    ensures ok <==> Renderable(v)
    ensures buf.Valid() && buf.Contents() == old(buf.Contents()) + if ok then IntText(Rounded(v)) else ""
    ensures buf.data == old(buf.data) || fresh(buf.data)
  {
    var rounded := AddHalf(v).Floor;
    if AbsReal(v - rounded as real) > TOLERANCE { return false; }
    buf.Append(IntText(rounded));
    return true;
  }

  /**
   `render_value`: appends the canonical text of the item, or reports failure
   exactly when some number in it is not renderable.
   */
  method RenderValue(buf: Buffer, item: Json<real>) returns (ok: bool)
    requires buf.Valid()
    modifies buf, buf.data
    ensures buf.Valid() && (buf.data == old(buf.data) || fresh(buf.data))
    ensures ok <==> Renders(item)
    ensures ok ==> buf.Contents() == old(buf.Contents()) + Rendering(item)
    decreases item, 1
  {
    match item {
      case Null => buf.Append("null"); ok := true;
      case Bool(b) => buf.Append(if b then "true" else "false"); ok := true;
      case Num(v) => ok := RenderNumber(buf, v);
      case Str(s) => AppendJsonString(buf, s); ok := true;
      case Arr(xs) => ok := RenderArray(buf, xs);
      case Obj(ms) => ok := RenderObject(buf, ms);
    }
  }

  method RenderItem(buf: Buffer, first: bool, item: Json<real>) returns (ok: bool)
    requires buf.Valid()
    modifies buf, buf.data
    ensures buf.Valid() && (buf.data == old(buf.data) || fresh(buf.data))
    ensures ok <==> Renders(item)
    ensures ok ==> buf.Contents() == old(buf.Contents()) + (Separator(first) + Rendering(item))
    decreases item, 2
  {
    ghost var before := buf.Contents();
    if !first { buf.Append(","); }
    ok := RenderValue(buf, item);
    Separated(before, first, Rendering(item));
  }

  lemma Separated(before: string, first: bool, text: string)
    ensures (if first then before else before + ",") + text == before + (Separator(first) + text)
  {
  }

  method RenderItems(buf: Buffer, xs: seq<Json<real>>) returns (ok: bool)
    requires buf.Valid()
    modifies buf, buf.data
    ensures buf.Valid() && (buf.data == old(buf.data) || fresh(buf.data))
    ensures ok <==> RendersUpTo(xs, |xs|)
    ensures ok ==> buf.Contents() == old(buf.Contents()) + Join(ItemParts(xs))
    decreases xs, 0
  {
    ghost var parts := ItemParts(xs);
    ghost var before := buf.Contents();
    var first := true;
    for i := 0 to |xs|
      invariant buf.Valid() && (buf.data == old(buf.data) || fresh(buf.data))
      invariant first <==> i == 0
      invariant RendersUpTo(xs, i)
      invariant buf.Contents() == before + Join(parts[..i])
    {
      var rendered := RenderItem(buf, first, xs[i]);
      if !rendered { FailsUpTo(xs, i); return false; }
      JoinStep(before, parts, i);
      first := false;
    }
    assert parts[..|xs|] == parts;
    return true;
  }

  method RenderArray(buf: Buffer, xs: seq<Json<real>>) returns (ok: bool)
    requires buf.Valid()
    modifies buf, buf.data
    ensures buf.Valid() && (buf.data == old(buf.data) || fresh(buf.data))
    ensures ok <==> Renders(Arr(xs))
    ensures ok ==> buf.Contents() == old(buf.Contents()) + Rendering(Arr(xs))
    decreases xs, 1
  {
    RenderingArr(buf.Contents(), xs);
    RendersArr(xs, |xs|);
    buf.Append("[");
    ok := RenderItems(buf, xs);
    if ok { buf.Append("]"); }
  }

  lemma JoinStep(before: string, parts: seq<string>, i: nat)
    requires i < |parts|
    ensures before + Join(parts[..i]) + (Separator(i == 0) + parts[i]) == before + Join(parts[..i + 1])
  {
    assert parts[..i + 1][..i] == parts[..i];
    var a, sep, b := Join(parts[..i]), Separator(i == 0), parts[i];
    assert before + a + (sep + b) == before + (a + sep + b);
  }

  method RenderMember(buf: Buffer, first: bool, m: Member<real>) returns (ok: bool)
    requires buf.Valid()
    modifies buf, buf.data
    ensures buf.Valid() && (buf.data == old(buf.data) || fresh(buf.data))
    ensures ok <==> Renders(m.value)
    ensures ok ==> buf.Contents() == old(buf.Contents()) + (Separator(first) + RenderingMember(m))
    decreases m, 2
  {
    ghost var before := buf.Contents();
    if !first { buf.Append(","); }
    assert buf.Contents() == before + Separator(first);
    AppendKey(buf, m.key);
    ok := RenderValue(buf, m.value);
    Flatten(before, Separator(first), Quote(m.key) + ":", Rendering(m.value));
  }

  method AppendKey(buf: Buffer, key: string)
    requires buf.Valid()
    modifies buf, buf.data
    ensures buf.Valid() && buf.Contents() == old(buf.Contents()) + (Quote(key) + ":")
    ensures buf.data == old(buf.data) || fresh(buf.data)
  {
    AppendJsonString(buf, key);
    buf.Append(":");
  }

  method RenderMembers(buf: Buffer, items: seq<Member<real>>, ghost ms: seq<Member<real>>) returns (ok: bool)
    requires buf.Valid()
    requires forall i :: 0 <= i < |items| ==> items[i] in ms
    modifies buf, buf.data
    ensures buf.Valid() && (buf.data == old(buf.data) || fresh(buf.data))
    ensures ok <==> RendersUpTo(Values(items), |items|)
    ensures ok ==> buf.Contents() == old(buf.Contents()) + Join(Parts(items))
    decreases ms, 0
  {
    ghost var parts := Parts(items);
    ghost var before := buf.Contents();
    var first := true;
    for i := 0 to |items|
      invariant buf.Valid() && (buf.data == old(buf.data) || fresh(buf.data))
      invariant first <==> i == 0
      invariant RendersUpTo(Values(items), i)
      invariant buf.Contents() == before + Join(parts[..i])
    {
      var rendered := RenderMember(buf, first, items[i]);
      if !rendered { FailsUpTo(Values(items), i); return false; }
      JoinStep(before, parts, i);
      first := false;
    }
    assert parts[..|items|] == parts;
    return true;
  }

  method RenderObject(buf: Buffer, ms: seq<Member<real>>) returns (ok: bool)
    requires buf.Valid()
    modifies buf, buf.data
    ensures buf.Valid() && (buf.data == old(buf.data) || fresh(buf.data))
    ensures ok <==> Renders(Obj(ms))
    ensures ok ==> buf.Contents() == old(buf.Contents()) + Rendering(Obj(ms))
    decreases ms, 1
  {
    RenderingObj(buf.Contents(), ms);
    RendersObj(ms);
    buf.Append("{");
    var items := Sort(ms);
    forall i | 0 <= i < |items| ensures items[i] in ms { SortedFrom(ms, i); }
    ok := RenderMembers(buf, items, ms);
    if ok { buf.Append("}"); }
  }

  /** `jcs_canonicalize` after its parse: the text, or failure when a number cannot be rendered. */
  method Canonicalize(root: Json<real>) returns (ok: bool, text: string)
    ensures ok <==> Renders(root)
    ensures ok ==> text == Rendering(root)
  {
    var buf := new Buffer();
    ok := RenderValue(buf, root);
    text := buf.data[..buf.len];
  }
}
