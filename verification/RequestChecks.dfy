/**
 What `handle_request` reads from the bytes of a request before it looks at its
 state: the parse, the required fields and their types, the time stamp and the
 signature, each with its refusal.
 */
module RequestChecks {
  import opened Options
  import opened Json
  import opened CanonicalText
  import opened SignedRequest
  import opened Timestamps
  import opened PrivilegedDaemon

  /** What a lookup in an object finds. */
  function Field(ms: seq<Member<real>>, name: string): Option<Json<real>> {
    var i := GetItem(ms, name);
    if i < |ms| then Some(ms[i].value) else None
  }

  predicate IsStr(v: Option<Json<real>>) { v.Some? && v.value.Str? }

  function Schema(slot: string, message: string): Option<Refusal> {
    Some(Refusal(slot, "error", "ERR_SCHEMA_INVALID", message))
  }

  predicate Complete(ms: seq<Member<real>>) {
    && IsStr(Field(ms, "request_id")) && Field(ms, "timestamp").Some? && Field(ms, "capability").Some?
    && Field(ms, "params").Some? && Field(ms, "agent_sequence").Some? && Field(ms, "policy_hash").Some?
    && Field(ms, "command_message_id").Some? && Field(ms, "sig").Some?
  }

  predicate WellTyped(ms: seq<Member<real>>)
    requires Complete(ms)
  {
    && IsStr(Field(ms, "timestamp")) && IsStr(Field(ms, "capability")) && Field(ms, "params").value.Obj?
    && Field(ms, "agent_sequence").value.Num? && IsStr(Field(ms, "policy_hash"))
    && IsStr(Field(ms, "command_message_id"))
  }

  /** `validate_sig_object`: the signature text, unless the block is unusable or names another signer. */
  function SignatureText(sig: Json<real>): Option<string> {
    if !sig.Obj? || !IsStr(Field(sig.members, "sig")) then None
    else if IsStr(Field(sig.members, "signer")) && Field(sig.members, "signer").value.s != "agent" then None
    else Some(Field(sig.members, "sig").value.s)
  }

  /** `(long)` of a double: towards zero. */
  function Truncated(v: real): int { if v < 0.0 then -((-v).Floor) else v.Floor }

  /** The checks that follow the one of the request id. */
  function Denial(ms: seq<Member<real>>, slot: string, hasKey: bool, verify: (string, string) -> bool): Option<Refusal>
    requires Complete(ms)
  {
    if !WellTyped(ms) then Schema(slot, "invalid field types")
    else if !ParsesTime(Field(ms, "timestamp").value.s) then Schema(slot, "invalid timestamp")
    else
      var sig, text := SignatureText(Field(ms, "sig").value), DaemonCanonical(Obj(ms));
      if sig.None? then Some(Refusal(slot, "denied", "ERR_SIG_INVALID", "invalid signature"))
      else if !hasKey then Some(Refusal(slot, "error", "ERR_SIG_INVALID", "missing agent public key"))
      else if text.None? then Schema(slot, "canonicalization failed")
      else if !verify(text.value, sig.value) then
        Some(Refusal(slot, "denied", "ERR_SIG_INVALID", "signature verification failed"))
      else None
  }

  /** The request as the rest of `handle_request` sees it. */
  function OfMembers(ms: seq<Member<real>>, hasKey: bool, verify: (string, string) -> bool): Request {
    var id := if IsStr(Field(ms, "request_id")) then Field(ms, "request_id").value.s else "";
    if !Complete(ms) then Request(Schema(Slot(id), "missing required fields"), id, None, 0)
    else
      Request(None, id, Denial(ms, Slot(id), hasKey, verify),
              if WellTyped(ms) then Truncated(Field(ms, "agent_sequence").value.n) else 0)
  }

  function Arrives(wire: Json<Number>, hasKey: bool, verify: (string, string) -> bool): Request {
    match DaemonParse(wire)
    case Some(Obj(ms)) => OfMembers(ms, hasKey, verify)
    case _ => Request(Schema("unknown", "invalid JSON"), "", None, 0)
  }

  // What the daemon finds in a request of the agent

  /** Names of another length or with another first letter do not get in the way of a lookup. */
  lemma FieldAt(ms: seq<Member<real>>, k: nat, name: string)
    requires k < |ms| && ms[k].key == name && name != ""
    requires forall i :: 0 <= i < k ==> |ms[i].key| != |name| || Lower(ms[i].key[0]) != Lower(name[0])
    ensures Field(ms, name) == Some(ms[k].value)
  {
    GetItemAt(ms, k, name);
  }

  lemma SigFieldsOf(ss: seq<Member<real>>, sig: string)
    requires |ss| == 5 && ss[0].key == "alg" && ss[1].key == "canon" && ss[2].key == "kid"
    requires ss[3] == Member("sig", Str(sig)) && ss[4] == Member("signer", Str("agent"))
    ensures SignatureText(Obj(ss)) == Some(sig)
  {
    FieldAt(ss, 3, "sig");
    FieldAt(ss, 4, "signer");
  }

  lemma FormFieldsOf(ss: seq<Member<real>>)
    requires |ss| == 5 && ss[0].key == "alg" && ss[1].key == "canon" && ss[2].key == "kid"
    ensures Field(ss, "alg") == Some(ss[0].value) && Field(ss, "canon") == Some(ss[1].value)
    ensures Field(ss, "kid") == Some(ss[2].value)
  {
    FieldAt(ss, 0, "alg");
    FieldAt(ss, 1, "canon");
    FieldAt(ss, 2, "kid");
  }

  lemma SigFields(kid: string, sig: string)
    ensures SignatureText(MapNumbers(ToDouble, SigBlock(kid, sig))) == Some(sig)
    ensures var ss := MapMembers(ToDouble, SigBlock(kid, sig).members);
            Field(ss, "alg") == Some(Str("Ed25519")) && Field(ss, "canon") == Some(Str("JCS-v1"))
            && Field(ss, "kid") == Some(Str(kid))
  {
    SigFieldsOf(MapMembers(ToDouble, SigBlock(kid, sig).members), sig);
    FormFieldsOf(MapMembers(ToDouble, SigBlock(kid, sig).members));
  }

  /** The member names of a request, in their order. */
  predicate Named(ms: seq<Member<real>>) {
    && |ms| == 8 && ms[0].key == "agent_sequence" && ms[1].key == "capability" && ms[2].key == "command_message_id"
    && ms[3].key == "params" && ms[4].key == "policy_hash" && ms[5].key == "request_id" && ms[6].key == "sig"
    && ms[7].key == "timestamp"
  }

  lemma FirstFields(ms: seq<Member<real>>)
    requires Named(ms)
    ensures Field(ms, "agent_sequence") == Some(ms[0].value) && Field(ms, "capability") == Some(ms[1].value)
    ensures Field(ms, "command_message_id") == Some(ms[2].value) && Field(ms, "params") == Some(ms[3].value)
  {
    FieldAt(ms, 0, "agent_sequence");
    FieldAt(ms, 1, "capability");
    FieldAt(ms, 2, "command_message_id");
    FieldAt(ms, 3, "params");
  }

  lemma LastFields(ms: seq<Member<real>>)
    requires Named(ms)
    ensures Field(ms, "policy_hash") == Some(ms[4].value) && Field(ms, "request_id") == Some(ms[5].value)
    ensures Field(ms, "sig") == Some(ms[6].value) && Field(ms, "timestamp") == Some(ms[7].value)
  {
    FieldAt(ms, 4, "policy_hash");
    FieldAt(ms, 5, "request_id");
    FieldAt(ms, 6, "sig");
    FieldAt(ms, 7, "timestamp");
  }

  lemma PayloadValues(f: Fields, sig: string)
    ensures var ms := MapMembers(ToDouble, Payload(f, sig).members);
            && Named(ms) && ms[0].value == Num(f.sequence as real) && ms[1].value == Str(f.capability)
            && ms[2].value == Str(f.commandId)
            && ms[3].value == MapNumbers(ToDouble, if f.params.Obj? then f.params else Obj([]))
            && ms[4].value == Str(f.policyHash) && ms[5].value == Str(f.requestId)
            && ms[6].value == MapNumbers(ToDouble, SigBlock(f.kid, sig)) && ms[7].value == Str(f.timestamp)
  {
  }

  lemma TruncatedInteger(n: int)
    ensures Truncated(n as real) == n
  {
  }

  /** Whatever is cut off is less than one, and taken off the magnitude. */
  lemma TruncatedTowardsZero(v: real)
    ensures v >= 0.0 ==> 0.0 <= v - Truncated(v) as real < 1.0
    ensures v <= 0.0 ==> -1.0 < v - Truncated(v) as real <= 0.0
  {
  }

  /** A lookup in the agent's request finds each field under its name. */
  lemma PayloadFields(f: Fields, sig: string)
    ensures var ms := MapMembers(ToDouble, Payload(f, sig).members);
            && Field(ms, "request_id") == Some(Str(f.requestId))
            && Field(ms, "timestamp") == Some(Str(f.timestamp))
            && Field(ms, "capability") == Some(Str(f.capability))
            && Field(ms, "params") == Some(MapNumbers(ToDouble, if f.params.Obj? then f.params else Obj([])))
            && Field(ms, "agent_sequence") == Some(Num(f.sequence as real))
            && Field(ms, "policy_hash") == Some(Str(f.policyHash))
            && Field(ms, "command_message_id") == Some(Str(f.commandId))
            && Field(ms, "sig") == Some(MapNumbers(ToDouble, SigBlock(f.kid, sig)))
  {
    var ms := MapMembers(ToDouble, Payload(f, sig).members);
    PayloadValues(f, sig);
    FirstFields(ms);
    LastFields(ms);
  }

  lemma NamedTyped(ms: seq<Member<real>>)
    requires Named(ms) && ms[0].value.Num? && ms[1].value.Str? && ms[2].value.Str? && ms[3].value.Obj?
    requires ms[4].value.Str? && ms[5].value.Str? && ms[7].value.Str?
    ensures Complete(ms) && WellTyped(ms)
  {
    FirstFields(ms);
    LastFields(ms);
  }

  lemma PayloadTyped(f: Fields, sig: string)
    ensures var ms := MapMembers(ToDouble, Payload(f, sig).members); Complete(ms) && WellTyped(ms)
  {
    PayloadValues(f, sig);
    NamedTyped(MapMembers(ToDouble, Payload(f, sig).members));
  }

  lemma PayloadParses(f: Fields, sig: string)
    requires NulFreeTree(Payload(f, sig))
    ensures DaemonParse(Payload(f, sig))
            == if Depth(Payload(f, sig)) > NESTING_LIMIT then None
               else Some(Obj(MapMembers(ToDouble, Payload(f, sig).members)))
  {
    CStringsNulFree(Payload(f, sig));
    FitsIff(Payload(f, sig), 0);
  }

  lemma PayloadDenied(f: Fields, sig: string, slot: string, verify: (string, string) -> bool)
    requires Complete(MapMembers(ToDouble, Payload(f, sig).members))
    ensures var ms := MapMembers(ToDouble, Payload(f, sig).members);
            var text := DaemonCanonical(Obj(ms));
            Denial(ms, slot, true, verify).None? <==>
              ParsesTime(f.timestamp) && text.Some? && verify(text.value, sig)
  {
    PayloadFields(f, sig);
    PayloadTyped(f, sig);
    SigFields(f.kid, sig);
  }

  lemma PayloadRequest(f: Fields, sig: string, verify: (string, string) -> bool)
    ensures var ms := MapMembers(ToDouble, Payload(f, sig).members);
            var r, text := OfMembers(ms, true, verify), DaemonCanonical(Obj(ms));
            && r.malformed.None? && r.id == f.requestId && r.sequence == f.sequence
            && (r.denied.None? <==> ParsesTime(f.timestamp) && text.Some? && verify(text.value, sig))
  {
    PayloadFields(f, sig);
    PayloadTyped(f, sig);
    TruncatedInteger(f.sequence);
    PayloadDenied(f, sig, Slot(f.requestId), verify);
  }

  /**
   The daemon reads the agent's request as it was built, if it can parse it: its
   id, its number, and a refusal exactly if the time stamp does not parse or the
   signature does not verify.
   */
  lemma AgentRequestArrives(f: Fields, sig: string, verify: (string, string) -> bool)
    requires NulFreeTree(Payload(f, sig))
    ensures var r, text := Arrives(Payload(f, sig), true, verify), DaemonText(Payload(f, sig));
            && (r.malformed.None? <==> Depth(Payload(f, sig)) <= NESTING_LIMIT)
            && (r.malformed.None? ==>
                  && r.id == f.requestId && r.sequence == f.sequence
                  && (r.denied.None? <==> ParsesTime(f.timestamp) && text.Some? && verify(text.value, sig)))
  {
    PayloadParses(f, sig);
    PayloadRequest(f, sig, verify);
  }

  // Which requests pass, whoever sent them

  /** What a required field must be. */
  datatype Kind = Text | Object | Figure

  predicate OfKind(v: Json<real>, kind: Kind) {
    match kind
    case Text => v.Str?
    case Object => v.Obj?
    case Figure => v.Num?
  }

  /** The member at `i` is the first whose name matches in any case. */
  predicate FirstNamed(ms: seq<Member<real>>, i: nat, name: string) {
    && i < |ms| && SameIgnoringCase(name, ms[i].key)
    && forall k :: 0 <= k < i ==> !SameIgnoringCase(name, ms[k].key)
  }

  ghost predicate Carries(ms: seq<Member<real>>, name: string, kind: Kind) {
    exists i: nat :: FirstNamed(ms, i, name) && OfKind(ms[i].value, kind)
  }

  lemma FieldIs(ms: seq<Member<real>>, name: string, kind: Kind)
    ensures Carries(ms, name, kind) <==> Field(ms, name).Some? && OfKind(Field(ms, name).value, kind)
  {
    var k := GetItem(ms, name);
    if k < |ms| { assert FirstNamed(ms, k, name); }
    forall i: nat | FirstNamed(ms, i, name) ensures i == k { }
  }

  ghost predicate CarriesTexts(ms: seq<Member<real>>) {
    && Carries(ms, "request_id", Text) && Carries(ms, "timestamp", Text) && Carries(ms, "capability", Text)
    && Carries(ms, "policy_hash", Text) && Carries(ms, "command_message_id", Text)
  }

  ghost predicate CarriesAll(ms: seq<Member<real>>) {
    && CarriesTexts(ms) && Carries(ms, "params", Object) && Carries(ms, "agent_sequence", Figure)
    && Carries(ms, "sig", Object)
  }

  lemma TextsIff(ms: seq<Member<real>>)
    ensures CarriesTexts(ms) <==>
              && IsStr(Field(ms, "request_id")) && IsStr(Field(ms, "timestamp")) && IsStr(Field(ms, "capability"))
              && IsStr(Field(ms, "policy_hash")) && IsStr(Field(ms, "command_message_id"))
  {
    FieldIs(ms, "request_id", Text);
    FieldIs(ms, "timestamp", Text);
    FieldIs(ms, "capability", Text);
    FieldIs(ms, "policy_hash", Text);
    FieldIs(ms, "command_message_id", Text);
  }

  lemma TypedIff(ms: seq<Member<real>>)
    ensures CarriesAll(ms) <==> Complete(ms) && WellTyped(ms) && Field(ms, "sig").value.Obj?
  {
    TextsIff(ms);
    FieldIs(ms, "params", Object);
    FieldIs(ms, "agent_sequence", Figure);
    FieldIs(ms, "sig", Object);
  }

  function TextOf(ms: seq<Member<real>>, name: string): string {
    var v := Field(ms, name);
    if IsStr(v) then v.value.s else ""
  }

  /** The signature block has a signature, and names the agent if it names a signer. */
  ghost predicate FromAgent(ss: seq<Member<real>>) {
    Carries(ss, "sig", Text) && (Carries(ss, "signer", Text) ==> TextOf(ss, "signer") == "agent")
  }

  lemma SignatureIff(ss: seq<Member<real>>)
    ensures SignatureText(Obj(ss)) == if FromAgent(ss) then Some(TextOf(ss, "sig")) else None
  {
    FieldIs(ss, "sig", Text);
    FieldIs(ss, "signer", Text);
  }

  /** The checks on the members of a request, all passed. */
  ghost predicate Passes(ms: seq<Member<real>>, verify: (string, string) -> bool) {
    && CarriesAll(ms) && SafeId(Slot(TextOf(ms, "request_id"))) && ParsesTime(TextOf(ms, "timestamp"))
    && Signed(ms, Field(ms, "sig").value, verify)
  }

  /** The request is signed for the agent over its own text. */
  ghost predicate Signed(ms: seq<Member<real>>, sig: Json<real>, verify: (string, string) -> bool) {
    && sig.Obj? && FromAgent(sig.members) && DaemonCanonical(Obj(ms)).Some?
    && verify(DaemonCanonical(Obj(ms)).value, TextOf(sig.members, "sig"))
  }

  lemma SignedIff(ms: seq<Member<real>>, slot: string, hasKey: bool, verify: (string, string) -> bool)
    requires Complete(ms) && WellTyped(ms) && ParsesTime(Field(ms, "timestamp").value.s)
    ensures Denial(ms, slot, hasKey, verify).None? <==> hasKey && Signed(ms, Field(ms, "sig").value, verify)
  {
    var sig := Field(ms, "sig").value;
    if sig.Obj? { SignatureIff(sig.members); }
  }

  lemma MembersPass(ms: seq<Member<real>>, hasKey: bool, verify: (string, string) -> bool)
    ensures Checked(OfMembers(ms, hasKey, verify)) <==> hasKey && Passes(ms, verify)
  {
    TypedIff(ms);
    if Complete(ms) && WellTyped(ms) && ParsesTime(Field(ms, "timestamp").value.s) {
      SignedIff(ms, Slot(TextOf(ms, "request_id")), hasKey, verify);
    }
  }

  /**
   A request passes the checks exactly if it is an object nested at most a
   thousand deep that carries all eight fields with their types, has a safe id and
   a time stamp that parses, and is signed for the agent over its own text.
   */
  lemma PassesIff(wire: Json<Number>, hasKey: bool, verify: (string, string) -> bool)
    ensures Checked(Arrives(wire, hasKey, verify)) <==>
              && Depth(wire) <= 1000 && wire.Obj? && hasKey
              && Passes(MapMembers(ToDouble, CStringMembers(wire.members)), verify)
  {
    FitsIff(wire, 0);
    if wire.Obj? { MembersPass(MapMembers(ToDouble, CStringMembers(wire.members)), hasKey, verify); }
  }
}
