/**
 The compact text all three canonicalisers emit (no white space, section 3.2.2
 of RFC 8785 for literals and strings) and its unique readability: a text
 determines the tree it was printed from.
 */
module CanonicalText {
  import opened Sequences
  import opened Options
  import opened Json

  /** An integer, or a float carried as the literal the printer chose for it. */
  datatype Number = Int(n: int) | Float(literal: string)

  predicate IsDigit(c: char) { '0' <= c <= '9' }

  predicate NumberChar(c: char) { IsDigit(c) || c in "-+.eE" }

  /** What a printed float looks like: number characters, at least one of them not an integer's. */
  predicate FloatLiteral(s: string) {
    (forall i :: 0 <= i < |s| ==> NumberChar(s[i])) && exists i :: 0 <= i < |s| && s[i] in ".eE"
  }

  predicate ValidNumber(n: Number) { n.Float? ==> FloatLiteral(n.literal) }

  function Digit(d: nat): (c: char)
    requires d < 10
    ensures IsDigit(c)
  {
    '0' + d as char
  }

  function NatText(n: nat): (s: string)
    ensures s != "" && forall i :: 0 <= i < |s| ==> IsDigit(s[i])
  {
    if n < 10 then [Digit(n)] else NatText(n / 10) + [Digit(n % 10)]
  }

  /** `%lld`. */
  function IntText(n: int): string {
    if n < 0 then "-" + NatText(-n) else NatText(n)
  }

  function NumberText(n: Number): string {
    match n
    case Int(i) => IntText(i)
    case Float(literal) => literal
  }

  function HexDigit(d: nat): char
    requires d < 16
  {
    "0123456789abcdef"[d]
  }

  /** One byte of a string as it appears between the quotes. */
  function Escape(c: char): string {
    if c == '\"' then "\\\""
    else if c == '\\' then "\\\\"
    else if c == '\U{08}' then "\\b"
    else if c == '\U{0C}' then "\\f"
    else if c == '\n' then "\\n"
    else if c == '\r' then "\\r"
    else if c == '\t' then "\\t"
    else if c < ' ' then "\\u00" + [HexDigit(c as int / 16), HexDigit(c as int % 16)]
    else [c]
  }

  function EscapeAll(s: string): string {
    if s == "" then "" else Escape(s[0]) + EscapeAll(s[1..])
  }

  function Quote(s: string): string { "\"" + EscapeAll(s) + "\"" }

  function Text(j: Json<Number>): string
    decreases j, 2
  {
    match j
    case Null => "null"
    case Bool(b) => if b then "true" else "false"
    case Num(n) => NumberText(n)
    case Str(s) => Quote(s)
    case Arr(xs) => "[" + ItemsText(xs) + "]"
    case Obj(ms) => "{" + MembersText(ms) + "}"
  }

  function ItemsText(xs: seq<Json<Number>>): string
    decreases xs, 1
  {
    if xs == [] then "" else Text(xs[0]) + MoreItems(xs[1..])
  }

  function MoreItems(xs: seq<Json<Number>>): string
    decreases xs, 0
  {
    if xs == [] then "" else "," + Text(xs[0]) + MoreItems(xs[1..])
  }

  function MembersText(ms: seq<Member<Number>>): string
    decreases ms, 1
  {
    if ms == [] then "" else MemberText(ms[0]) + MoreMembers(ms[1..])
  }

  function MoreMembers(ms: seq<Member<Number>>): string
    decreases ms, 0
  {
    if ms == [] then "" else "," + MemberText(ms[0]) + MoreMembers(ms[1..])
  }

  function MemberText(m: Member<Number>): string
    decreases m, 3
  {
    Quote(m.key) + ":" + Text(m.value)
  }

  // The same texts built left to right, as a renderer appends them

  /** The parts with commas between them. */
  function Join(parts: seq<string>): string {
    if |parts| == 0 then ""
    else Join(parts[..|parts| - 1]) + Separator(|parts| == 1) + parts[|parts| - 1]
  }

  function Separator(first: bool): string { if first then "" else "," }

  /** Commas in front of all but the first part, from the left. */
  function JoinRest(parts: seq<string>): string {
    if |parts| == 0 then "" else "," + parts[0] + JoinRest(parts[1..])
  }

  lemma {:induction false} JoinLeft(parts: seq<string>)
    requires parts != []
    ensures Join(parts) == parts[0] + JoinRest(parts[1..])
  {
    var n := |parts| - 1;
    if n == 0 {
      assert parts[1..] == [];
    } else {
      JoinLeft(parts[..n]);
      assert parts[..n][1..] == parts[1..n] && parts[1..] == parts[1..n] + [parts[n]];
      JoinRestSnoc(parts[1..n], parts[n]);
      Reassociate(parts[0], JoinRest(parts[1..n]), parts[n]);
    }
  }

  lemma {:induction false} JoinRestSnoc(parts: seq<string>, p: string)
    ensures JoinRest(parts + [p]) == JoinRest(parts) + "," + p
  {
    if parts == [] {
      assert [p][1..] == [];
    } else {
      JoinRestSnoc(parts[1..], p);
      assert (parts + [p])[1..] == parts[1..] + [p];
    }
  }

  lemma Reassociate(a: string, b: string, c: string)
    ensures a + (b + "," + c) == a + b + "," + c
  {
  }

  lemma {:induction false} ItemsJoin(xs: seq<Json<Number>>, parts: seq<string>)
    requires |parts| == |xs| && forall i :: 0 <= i < |xs| ==> parts[i] == Text(xs[i])
    ensures MoreItems(xs) == JoinRest(parts) && ItemsText(xs) == Join(parts)
  {
    if xs != [] {
      ItemsJoin(xs[1..], parts[1..]);
      JoinLeft(parts);
    }
  }

  lemma {:induction false} MembersJoin(ms: seq<Member<Number>>, parts: seq<string>)
    requires |parts| == |ms| && forall i :: 0 <= i < |ms| ==> parts[i] == MemberText(ms[i])
    ensures MoreMembers(ms) == JoinRest(parts) && MembersText(ms) == Join(parts)
  {
    if ms != [] {
      MembersJoin(ms[1..], parts[1..]);
      JoinLeft(parts);
    }
  }

  lemma {:induction false} EscapeSnoc(s: string, c: char)
    ensures EscapeAll(s + [c]) == EscapeAll(s) + Escape(c)
  {
    if s == "" {
      assert [c][1..] == "" && s + [c] == [c];
    } else {
      EscapeSnoc(s[1..], c);
      assert (s + [c])[1..] == s[1..] + [c] && (s + [c])[0] == s[0];
      Assoc(Escape(s[0]), EscapeAll(s[1..]), Escape(c));
    }
  }

  // Reading: the grammar of RFC 8259, without white space between tokens

  /** The length of the leading run of number characters. */
  function NumberRun(s: string): (n: nat)
    ensures n <= |s|
  {
    if s != "" && NumberChar(s[0]) then NumberRun(s[1..]) + 1 else 0
  }

  function NatValue(s: string): nat
    requires forall i :: 0 <= i < |s| ==> IsDigit(s[i])
  {
    if s == "" then 0
    else
      assert IsDigit(s[|s| - 1]);
      10 * NatValue(s[..|s| - 1]) + (s[|s| - 1] as int - '0' as int)
  }

  /** Digits without a leading zero. */
  predicate NatLiteral(s: string) {
    s != "" && (forall i :: 0 <= i < |s| ==> IsDigit(s[i])) && (s[0] == '0' ==> |s| == 1)
  }

  /** A float stands for itself; an integer has a value. */
  function NumberValue(s: string): Option<Number> {
    if NatLiteral(s) then Some(Int(NatValue(s)))
    else if s != "" && s[0] == '-' && NatLiteral(s[1..]) then Some(Int(0 - NatValue(s[1..])))
    else if FloatLiteral(s) then Some(Float(s))
    else None
  }

  function ReadNumber(s: string): (r: Option<(Number, string)>)
    ensures r.Some? ==> |r.value.1| < |s|
  {
    var n := NumberRun(s);
    match NumberValue(s[..n])
    case None => None
    case Some(v) => Some((v, s[n..]))
  }

  /** The character a short escape stands for. */
  function ShortEscape(c: char): Option<char> {
    if c in "\"\\/" then Some(c)
    else if c == 'b' then Some('\U{08}')
    else if c == 'f' then Some('\U{0C}')
    else if c == 'n' then Some('\n')
    else if c == 'r' then Some('\r')
    else if c == 't' then Some('\t')
    else None
  }

  function HexValue(c: char): Option<nat> {
    if IsDigit(c) then Some(c as int - '0' as int)
    else if 'a' <= c <= 'f' then Some(c as int - 'a' as int + 10)
    else if 'A' <= c <= 'F' then Some(c as int - 'A' as int + 10)
    else None
  }

  /** Four hexadecimal digits that name a single byte of UTF-8; no printer here escapes any other character. */
  function HexChar(s: string): Option<char>
    requires |s| == 4
  {
    var a, b := HexValue(s[2]), HexValue(s[3]);
    if s[..2] == "00" && a.Some? && b.Some? && a.value < 8 then Some((16 * a.value + b.value) as char) else None
  }

  /** One character of a string, escaped or not. */
  function ReadChar(s: string): (r: Option<(char, string)>)
    ensures r.Some? ==> |r.value.1| < |s|
  {
    if s == "" || s[0] == '\"' || s[0] < ' ' then None
    else if s[0] != '\\' then Some((s[0], s[1..]))
    else if |s| < 2 then None
    else if s[1] != 'u' then
      match ShortEscape(s[1])
      case None => None
      case Some(c) => Some((c, s[2..]))
    else if |s| < 6 then None
    else
      match HexChar(s[2..6])
      case None => None
      case Some(c) => Some((c, s[6..]))
  }

  /** The rest of a string, after its opening quote. */
  function ReadChars(s: string): (r: Option<(string, string)>)
    ensures r.Some? ==> |r.value.1| < |s|
    decreases |s|
  {
    if s != "" && s[0] == '\"' then Some(("", s[1..]))
    else
      match ReadChar(s)
      case None => None
      case Some((c, t)) =>
        match ReadChars(t)
        case None => None
        case Some((more, u)) => Some(([c] + more, u))
  }

  function ReadString(s: string): (r: Option<(string, string)>)
    ensures r.Some? ==> |r.value.1| < |s|
  {
    if s != "" && s[0] == '\"' then ReadChars(s[1..]) else None
  }

  function ReadWord(s: string, word: string, value: Json<Number>): (r: Option<(Json<Number>, string)>)
    requires word != ""
    ensures r.Some? ==> |r.value.1| < |s|
  {
    if word <= s then Some((value, s[|word|..])) else None
  }

  /** A value at the beginning of a text, and what follows it. */
  function ReadValue(s: string): (r: Option<(Json<Number>, string)>)
    ensures r.Some? ==> |r.value.1| < |s|
    decreases |s|, 0
  {
    if s == "" then None
    else if s[0] == 'n' then ReadWord(s, "null", Null)
    else if s[0] == 't' then ReadWord(s, "true", Bool(true))
    else if s[0] == 'f' then ReadWord(s, "false", Bool(false))
    else if s[0] == '\"' then
      match ReadString(s)
      case None => None
      case Some((a, t)) => Some((Str(a), t))
    else if s[0] == '[' then
      if |s| > 1 && s[1] == ']' then Some((Arr([]), s[2..]))
      else
        match ReadItems(s[1..])
        case None => None
        case Some((xs, t)) => Some((Arr(xs), t))
    else if s[0] == '{' then
      if |s| > 1 && s[1] == '}' then Some((Obj([]), s[2..]))
      else
        match ReadMembers(s[1..])
        case None => None
        case Some((ms, t)) => Some((Obj(ms), t))
    else
      match ReadNumber(s)
      case None => None
      case Some((n, t)) => Some((Num(n), t))
  }

  /** The items of a non-empty array, with its closing bracket. */
  function ReadItems(s: string): (r: Option<(seq<Json<Number>>, string)>)
    ensures r.Some? ==> |r.value.1| < |s|
    decreases |s|, 1
  {
    match ReadValue(s)
    case None => None
    case Some((x, t)) =>
      if t == "" then None
      else if t[0] == ']' then Some(([x], t[1..]))
      else if t[0] != ',' then None
      else
        match ReadItems(t[1..])
        case None => None
        case Some((xs, u)) => Some(([x] + xs, u))
  }

  function ReadMember(s: string): (r: Option<(Member<Number>, string)>)
    ensures r.Some? ==> |r.value.1| < |s|
    decreases |s|, 1
  {
    match ReadString(s)
    case None => None
    case Some((key, t)) =>
      if t == "" || t[0] != ':' then None
      else
        match ReadValue(t[1..])
        case None => None
        case Some((x, u)) => Some((Member(key, x), u))
  }

  /** The members of a non-empty object, with its closing brace. */
  function ReadMembers(s: string): (r: Option<(seq<Member<Number>>, string)>)
    ensures r.Some? ==> |r.value.1| < |s|
    decreases |s|, 2
  {
    match ReadMember(s)
    case None => None
    case Some((m, t)) =>
      if t == "" then None
      else if t[0] == '}' then Some(([m], t[1..]))
      else if t[0] != ',' then None
      else
        match ReadMembers(t[1..])
        case None => None
        case Some((ms, u)) => Some(([m] + ms, u))
  }

  /** A whole text. */
  function Read(s: string): Option<Json<Number>> {
    match ReadValue(s)
    case Some((j, "")) => Some(j)
    case _ => None
  }

  // What is printed reads back

  lemma {:induction false} NatValueOfText(n: nat)
    ensures NatValue(NatText(n)) == n && NatLiteral(NatText(n))
  {
    if n >= 10 {
      NatValueOfText(n / 10);
      assert NatText(n)[..|NatText(n)| - 1] == NatText(n / 10);
      if n / 10 < 10 { assert NatText(n / 10) == [Digit(n / 10)]; }
    } else {
      assert NatText(n)[..0] == "";
    }
  }

  lemma NegativeValue(n: nat)
    ensures NumberValue("-" + NatText(n)) == Some(Int(0 - n))
  {
    NatValueOfText(n);
    assert ("-" + NatText(n))[1..] == NatText(n);
  }

  lemma FloatValue(s: string)
    requires FloatLiteral(s)
    ensures NumberValue(s) == Some(Float(s))
  {
    var i :| 0 <= i < |s| && s[i] in ".eE";
    assert !IsDigit(s[i]) && (i > 0 ==> s[1..][i - 1] == s[i]);
  }

  lemma NumberValueOfText(n: Number)
    requires ValidNumber(n)
    ensures NumberValue(NumberText(n)) == Some(n)
  {
    match n
    case Int(i) => if i < 0 { NegativeValue(-i); } else { NatValueOfText(i); }
    case Float(s) => FloatValue(s);
  }

  lemma NumberTextChars(n: Number)
    requires ValidNumber(n)
    ensures NumberText(n) != ""
    ensures forall i :: 0 <= i < |NumberText(n)| ==> NumberChar(NumberText(n)[i])
  {
  }

  /** Whatever follows a value: nothing, or a separator or closing bracket. */
  predicate Delimited(s: string) { s == "" || s[0] in ",]}" }

  lemma {:induction false} NumberRunAll(a: string, s: string)
    requires (forall i :: 0 <= i < |a| ==> NumberChar(a[i])) && Delimited(s)
    ensures NumberRun(a + s) == |a|
  {
    if a == "" {
      assert a + s == s;
    } else {
      assert (a + s)[0] == a[0] && (a + s)[1..] == a[1..] + s;
      NumberRunAll(a[1..], s);
    }
  }

  lemma ReadNumberText(n: Number, s: string)
    requires ValidNumber(n) && Delimited(s)
    ensures ReadNumber(NumberText(n) + s) == Some((n, s))
  {
    var a := NumberText(n);
    NumberTextChars(n);
    NumberRunAll(a, s);
    NumberValueOfText(n);
    assert (a + s)[..|a|] == a && (a + s)[|a|..] == s;
  }

  lemma HexValueOfDigit(d: nat)
    requires d < 16
    ensures HexValue(HexDigit(d)) == Some(d)
  {
  }

  lemma ReadEscape(c: char, s: string)
    ensures ReadChar(Escape(c) + s) == Some((c, s))
  {
    var t := Escape(c) + s;
    assert t[|Escape(c)|..] == s && forall i :: 0 <= i < |Escape(c)| ==> t[i] == Escape(c)[i];
    if |Escape(c)| == 6 {
      HexValueOfDigit(c as int / 16);
      HexValueOfDigit(c as int % 16);
      assert t[2..6] == Escape(c)[2..6];
    }
  }

  lemma {:induction false} ReadEscaped(a: string, s: string)
    ensures ReadChars(EscapeAll(a) + ("\"" + s)) == Some((a, s))
  {
    var s' := "\"" + s;
    if a == "" {
      assert EscapeAll(a) + s' == s' && s'[1..] == s;
    } else {
      var t := EscapeAll(a[1..]) + s';
      Assoc(Escape(a[0]), EscapeAll(a[1..]), s');
      ReadEscape(a[0], t);
      ReadEscaped(a[1..], s);
      assert a == [a[0]] + a[1..];
    }
  }

  lemma ReadQuote(a: string, s: string)
    ensures ReadString(Quote(a) + s) == Some((a, s))
  {
    var t := EscapeAll(a) + ("\"" + s);
    assert Quote(a) + s == "\"" + t && ("\"" + t)[1..] == t;
    ReadEscaped(a, s);
  }

  /** Every float of the tree is a literal a printer could have produced. */
  predicate Printable(j: Json<Number>) { AllNumbers(ValidNumber, j) }

  predicate PrintableItems(xs: seq<Json<Number>>) { forall i :: 0 <= i < |xs| ==> Printable(xs[i]) }

  predicate PrintableMembers(ms: seq<Member<Number>>) { forall i :: 0 <= i < |ms| ==> Printable(ms[i].value) }

  lemma ReadWordThen(word: string, s: string, value: Json<Number>)
    requires word != ""
    ensures ReadWord(word + s, word, value) == Some((value, s))
  {
    assert (word + s)[|word|..] == s;
  }

  lemma ReadNull(s: string)
    ensures ReadValue("null" + s) == Some((Null, s))
  {
    ReadWordThen("null", s, Null);
  }

  lemma ReadBool(b: bool, s: string)
    ensures ReadValue(Text(Bool(b)) + s) == Some((Bool(b), s))
  {
    ReadWordThen(Text(Bool(b)), s, Bool(b));
  }

  lemma ReadNum(n: Number, s: string)
    requires ValidNumber(n) && Delimited(s)
    ensures ReadValue(NumberText(n) + s) == Some((Num(n), s))
  {
    NumberTextChars(n);
    ReadNumberText(n, s);
    var c := (NumberText(n) + s)[0];
    assert NumberChar(c) && c != 'n' && c != 't' && c != 'f' && c != '\"' && c != '[' && c != '{';
  }

  lemma ReadStr(a: string, s: string)
    ensures ReadValue(Quote(a) + s) == Some((Str(a), s))
  {
    ReadQuote(a, s);
  }

  /** A printed value, followed by a delimiter or nothing, reads back as itself and leaves what follows. */
  lemma {:induction false} ReadText(j: Json<Number>, s: string)
    requires Printable(j) && Delimited(s)
    ensures ReadValue(Text(j) + s) == Some((j, s))
    decreases j, 2
  {
    match j
    case Null => ReadNull(s);
    case Bool(b) => ReadBool(b, s);
    case Num(n) => ReadNum(n, s);
    case Str(a) => ReadStr(a, s);
    case Arr(xs) =>
      if xs != [] { ReadItemsText(xs, s); }
      ReadArray(xs, s);
    case Obj(ms) =>
      if ms != [] { ReadMembersText(ms, s); }
      ReadObject(ms, s);
  }

  /** Inside its brackets, and with them, a list starts as a reader expects. */
  lemma Bracketed(open: string, a: string, close: string, s: string)
    requires |open| == 1 && |close| == 1
    ensures var t := open + a + close + s;
            t[0] == open[0] && t[1..] == a + (close + s) && |t| > 1
            && t[1] == (if a == "" then close[0] else a[0]) && (a == "" ==> t[2..] == s)
  {
    assert open + a + close + s == open + (a + (close + s));
  }

  lemma ReadArray(xs: seq<Json<Number>>, s: string)
    requires var a := ItemsText(xs);
             xs == [] || (a != "" && a[0] != ']' && ReadItems(a + ("]" + s)) == Some((xs, s)))
    ensures ReadValue("[" + ItemsText(xs) + "]" + s) == Some((Arr(xs), s))
  {
    Bracketed("[", ItemsText(xs), "]", s);
  }

  lemma ReadObject(ms: seq<Member<Number>>, s: string)
    requires var a := MembersText(ms);
             ms == [] || (a != "" && a[0] != '}' && ReadMembers(a + ("}" + s)) == Some((ms, s)))
    ensures ReadValue("{" + MembersText(ms) + "}" + s) == Some((Obj(ms), s))
  {
    Bracketed("{", MembersText(ms), "}", s);
  }

  /** The first character of a printed value closes no bracket. */
  lemma TextStart(j: Json<Number>)
    requires Printable(j)
    ensures Text(j) != "" && Text(j)[0] !in ",]}"
  {
    if j.Num? { NumberTextChars(j.n); }
  }

  lemma ItemsStart(xs: seq<Json<Number>>)
    requires PrintableItems(xs) && xs != []
    ensures ItemsText(xs) != "" && ItemsText(xs)[0] != ']'
  {
    TextStart(xs[0]);
  }

  lemma CommaThen(a: string, b: string, s: string)
    ensures "," + a + b + s == "," + (a + b + s)
  {
  }

  lemma MoreItemsThen(xs: seq<Json<Number>>, s: string)
    ensures Delimited(MoreItems(xs) + ("]" + s))
    ensures MoreItems(xs) + ("]" + s) == if xs == [] then "]" + s else "," + (ItemsText(xs) + ("]" + s))
  {
    if xs != [] { CommaThen(Text(xs[0]), MoreItems(xs[1..]), "]" + s); }
  }

  lemma {:induction false} ReadItemsText(xs: seq<Json<Number>>, s: string)
    requires PrintableItems(xs) && xs != []
    ensures ReadItems(ItemsText(xs) + ("]" + s)) == Some((xs, s))
    ensures ItemsText(xs) != "" && ItemsText(xs)[0] != ']'
    decreases xs, 1
  {
    var rest := xs[1..];
    var t := MoreItems(rest) + ("]" + s);
    ItemsStart(xs);
    MoreItemsThen(rest, s);
    Assoc(Text(xs[0]), MoreItems(rest), "]" + s);
    ReadText(xs[0], t);
    assert xs == [xs[0]] + rest;
    if rest == [] {
      assert xs == [xs[0]] && t == "]" + s && t[1..] == s;
    } else {
      assert t[1..] == ItemsText(rest) + ("]" + s);
      ReadItemsText(rest, s);
    }
  }

  lemma {:induction false} ReadMemberText(m: Member<Number>, s: string)
    requires Printable(m.value) && Delimited(s)
    ensures ReadMember(MemberText(m) + s) == Some((m, s))
    decreases m, 3
  {
    var t := Text(m.value) + s;
    assert MemberText(m) + s == Quote(m.key) + (":" + t) && (":" + t)[1..] == t;
    ReadQuote(m.key, ":" + t);
    ReadText(m.value, s);
  }

  lemma MoreMembersThen(ms: seq<Member<Number>>, s: string)
    ensures Delimited(MoreMembers(ms) + ("}" + s))
    ensures MoreMembers(ms) + ("}" + s) == if ms == [] then "}" + s else "," + (MembersText(ms) + ("}" + s))
  {
    if ms != [] { CommaThen(MemberText(ms[0]), MoreMembers(ms[1..]), "}" + s); }
  }

  lemma {:induction false} ReadMembersText(ms: seq<Member<Number>>, s: string)
    requires PrintableMembers(ms) && ms != []
    ensures ReadMembers(MembersText(ms) + ("}" + s)) == Some((ms, s))
    ensures MembersText(ms) != "" && MembersText(ms)[0] != '}'
    decreases ms, 1
  {
    var rest := ms[1..];
    var t := MoreMembers(rest) + ("}" + s);
    MoreMembersThen(rest, s);
    Assoc(MemberText(ms[0]), MoreMembers(rest), "}" + s);
    ReadMemberText(ms[0], t);
    assert ms == [ms[0]] + rest;
    if rest == [] {
      assert ms == [ms[0]] && t == "}" + s && t[1..] == s;
    } else {
      assert t[1..] == MembersText(rest) + ("}" + s);
      ReadMembersText(rest, s);
    }
  }

  /** What is printed reads back. */
  lemma ReadBack(j: Json<Number>)
    requires Printable(j)
    ensures Read(Text(j)) == Some(j)
  {
    ReadText(j, "");
    assert Text(j) + "" == Text(j);
  }

  // Unique readability

  /** Escapes form a prefix code. */
  lemma EscapePrefixFree(c: char, s: string, d: char, t: string)
    requires Escape(c) + s == Escape(d) + t
    ensures c == d && s == t
  {
    ReadEscape(c, s);
    ReadEscape(d, t);
  }

  lemma QuoteEnds(a: string, s: string, b: string, t: string)
    requires Quote(a) + s == Quote(b) + t
    ensures a == b && s == t
  {
    ReadQuote(a, s);
    ReadQuote(b, t);
  }

  /** A printed value, followed by a delimiter or nothing, can be read one way only. */
  lemma TextEnds(x: Json<Number>, s: string, y: Json<Number>, t: string)
    requires Printable(x) && Printable(y) && Delimited(s) && Delimited(t)
    requires Text(x) + s == Text(y) + t
    ensures x == y && s == t
  {
    ReadText(x, s);
    ReadText(y, t);
  }

  /** A whole text names one tree. */
  lemma TextInjective(x: Json<Number>, y: Json<Number>)
    requires Printable(x) && Printable(y)
    requires Text(x) == Text(y)
    ensures x == y
  {
    ReadBack(x);
    ReadBack(y);
  }
}
