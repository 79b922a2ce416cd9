/**
 What the agent answers over a whole run: repeated commands get the same
 answer, every admitted delivery gets exactly one, and a delivery that comes
 twice in a row is ignored.
 */
module AgentAnswers {
  import opened AgentStore
  import opened AgentOutbox
  import opened AgentDelivery
  import opened AgentRuns

  // Which action recorded an event

  /** An event added by a list of actions was added by one of them. */
  lemma {:induction false} Locate(m: Machine, acts: seq<Action>, disk: nat -> bool, k: nat) returns (p: nat)
    requires m.history <= ApplyAll(m, acts, disk).history && |m.history| <= k < |ApplyAll(m, acts, disk).history|
    ensures p < |acts| && k == |ApplyAll(m, acts[..p], disk).history|
    ensures Recorded(ApplyAll(m, acts[..p], disk), acts[p], disk(p), ApplyAll(m, acts, disk).history[k])
  {
    var n := |acts| - 1;
    var m1 := ApplyAll(m, acts[..n], disk);
    HistoryGrows(m, acts[..n], disk);
    if k < |m1.history| {
      p := Locate(m, acts[..n], disk, k);
      assert acts[..n][..p] == acts[..p];
      HistoryKept(m1, acts[n], disk(n), k);
    } else {
      p := n;
    }
  }

  /** The action adds exactly this event. */
  predicate Recorded(m: Machine, a: Action, saved: bool, e: Event) {
    Apply(m, a, saved).history == m.history + [e]
  }

  lemma HistoryKept(m: Machine, a: Action, saved: bool, k: nat)
    requires k < |m.history|
    ensures k < |Apply(m, a, saved).history| && Apply(m, a, saved).history[k] == m.history[k]
  {
  }

  lemma ApplyGrows(m: Machine, a: Action, saved: bool)
    ensures m.history <= Apply(m, a, saved).history
  {
  }

  lemma {:induction false} HistoryGrows(m: Machine, acts: seq<Action>, disk: nat -> bool)
    ensures m.history <= ApplyAll(m, acts, disk).history
  {
    if acts != [] {
      var n := |acts| - 1;
      HistoryGrows(m, acts[..n], disk);
      ApplyGrows(ApplyAll(m, acts[..n], disk), acts[n], disk(n));
    }
  }

  // Consistency of one reply with the cache

  predicate IsReply(e: Event) { e.Answered? || e.Acked? }

  /** The reply agrees with what the entry would answer. */
  predicate Fits(entry: ProcessedCommand, e: Event) {
    match e
    case Answered(_, result) => result == entry.result
    case Acked(_, status, reason) => entry.requiresAck ==> status == AckStatus(entry) && reason == entry.ackReason
    case _ => true
  }

  predicate MissedIn(es: seq<Event>, id: string) { Missed(id) in es }

  /** The command was looked up in vain, or cached commands were lost, in this stretch. */
  predicate Forgotten(es: seq<Event>, id: string) { MissedIn(es, id) || LossyRestart(es) }

  predicate EntryFits(ps: seq<ProcessedCommand>, id: string, e: Event) {
    Cached(ps, id) ==> Fits(ps[Find(ps, id)], e)
  }

  /** The reply at `i` still is what the cache answers for its command. */
  predicate Consistent(m: Machine, i: nat, id: string) {
    i < |m.history| && (Forgotten(m.history[i + 1..], id) || EntryFits(m.store.processed, id, m.history[i]))
  }

  lemma ForgottenLater(es: seq<Event>, more: seq<Event>, id: string)
    requires Forgotten(es, id)
    ensures Forgotten(es + more, id)
  {
    if LossyRestart(es) {
      var k :| 0 <= k < |es| && es[k].Restarted? && es[k].lostCommands;
      assert (es + more)[k] == es[k];
    }
  }

  lemma ReplaceOther(ps: seq<ProcessedCommand>, r: nat, c: ProcessedCommand, id: string)
    requires DistinctIds(ps) && r < |ps| && ps[r].commandId == c.commandId != id
    requires Find(ps[r := c], id) < |ps|
    ensures Find(ps, id) == Find(ps[r := c], id) && ps[r := c][Find(ps, id)] == ps[Find(ps, id)]
  {
  }

  lemma PushOther(ps: seq<ProcessedCommand>, drop: nat, c: ProcessedCommand, id: string)
    requires DistinctIds(ps) && drop <= |ps| && c.commandId != id
    requires Find(ps[drop..] + [c], id) <= |ps| - drop
    ensures Find(ps, id) == Find(ps[drop..] + [c], id) + drop < |ps|
    ensures (ps[drop..] + [c])[Find(ps, id) - drop] == ps[Find(ps, id)]
  {
  }

  /** Remembering one command leaves another's entry as it was, or evicts it. */
  lemma RememberOther(ps: seq<ProcessedCommand>, c: ProcessedCommand, id: string)
    requires ValidCache(ps) && c.commandId != "" && c.commandId != id && Cached(Remember(ps, c), id)
    ensures Cached(ps, id) && Remember(ps, c)[Find(Remember(ps, c), id)] == ps[Find(ps, id)]
  {
    if Cached(ps, c.commandId) {
      ReplaceOther(ps, Find(ps, c.commandId), c, id);
    } else {
      RememberNew(ps, c);
      PushOther(ps, if |ps| < MAX_PROCESSED then 0 else 1, c, id);
    }
  }

  /** An entry remembered for the command agrees with the reply. */
  predicate Agrees(a: Action, id: string, e: Event) {
    a.RememberEntry? && a.entry.commandId == id ==> Fits(a.entry, e)
  }

  lemma RememberConsistent(ps: seq<ProcessedCommand>, c: ProcessedCommand, id: string, e: Event)
    requires ValidCache(ps) && c.commandId != "" && EntryFits(ps, id, e) && (c.commandId == id ==> Fits(c, e))
    ensures EntryFits(Remember(ps, c), id, e)
  {
    if c.commandId == id {
      RememberKeepsCache(ps, c);
    } else if Cached(Remember(ps, c), id) {
      RememberOther(ps, c, id);
    }
  }

  lemma ApplyConsistent(m: Machine, a: Action, saved: bool, i: nat, id: string)
    requires Sound(m) && Consistent(m, i, id)
    requires Agrees(a, id, m.history[i]) || Forgotten(m.history[i + 1..], id)
    ensures Consistent(Apply(m, a, saved), i, id)
  {
    var es, more := m.history[i + 1..], NewEvents(m, a);
    ApplyTail(m, a, saved, i);
    if Forgotten(es, id) {
      ForgottenLater(es, more, id);
    } else if a.RememberEntry? && a.entry.commandId != "" {
      RememberConsistent(m.store.processed, a.entry, id, m.history[i]);
    } else if a.Restart? && more[0].lostCommands {
      assert (es + more)[|es|] == more[0];
    }
  }

  /** Every action in the list agrees with the reply, or comes after a miss. */
  predicate AllAgree(acts: seq<Action>, id: string, e: Event) {
    forall k :: 0 <= k < |acts| ==> Agrees(acts[k], id, e) || Miss(id) in acts[..k]
  }

  lemma ApplyMiss(m: Machine, id: string, saved: bool)
    ensures m.history <= Apply(m, Miss(id), saved).history && MissedIn(Added(m, Apply(m, Miss(id), saved)), id)
  {
  }

  lemma {:induction false} MissRecorded(m: Machine, acts: seq<Action>, disk: nat -> bool, id: string)
    requires Miss(id) in acts
    ensures m.history <= ApplyAll(m, acts, disk).history && MissedIn(Added(m, ApplyAll(m, acts, disk)), id)
  {
    var n := |acts| - 1;
    var m1 := ApplyAll(m, acts[..n], disk);
    HistoryGrows(m, acts[..n], disk);
    if acts[n] == Miss(id) {
      ApplyMiss(m1, id, disk(n));
    } else {
      assert acts == acts[..n] + [acts[n]];
      MissRecorded(m, acts[..n], disk, id);
      ApplyGrows(m1, acts[n], disk(n));
    }
    MissedJoin(m, m1, Apply(m1, acts[n], disk(n)), id);
  }

  lemma MissedJoin(m: Machine, m1: Machine, m2: Machine, id: string)
    requires m.history <= m1.history <= m2.history && (MissedIn(Added(m, m1), id) || MissedIn(Added(m1, m2), id))
    ensures m.history <= m2.history && MissedIn(Added(m, m2), id)
  {
    AddedJoin(m, m1, m2);
  }

  lemma AddedForgets(m: Machine, m': Machine, i: nat, id: string)
    requires m.history <= m'.history && i < |m.history| && MissedIn(Added(m, m'), id)
    ensures Forgotten(m'.history[i + 1..], id)
  {
  }

  lemma {:induction false} ApplyAllConsistent(m: Machine, acts: seq<Action>, disk: nat -> bool, i: nat, id: string)
    requires Sound(m) && Consistent(m, i, id) && AllAgree(acts, id, m.history[i])
    ensures Consistent(ApplyAll(m, acts, disk), i, id)
  {
    if acts != [] {
      var n := |acts| - 1;
      var m1 := ApplyAll(m, acts[..n], disk);
      assert forall k :: 0 <= k < n ==> acts[..n][..k] == acts[..k];
      ApplyAllConsistent(m, acts[..n], disk, i, id);
      ApplyAllSound(m, acts[..n], disk);
      if Miss(id) in acts[..n] {
        MissRecorded(m, acts[..n], disk, id);
        AddedForgets(m, m1, i, id);
      }
      ApplyConsistent(m1, acts[n], disk(n), i, id);
    }
  }

  // The replies of one delivery

  function NewEntry(d: Delivery): ProcessedCommand { if Expired(d) then ExpiredEntry(d) else HandledEntry(d) }

  /** The entry a delivery answers from: the cached one, or the one it is about to cache. */
  function Source(store: Image, d: Delivery): ProcessedCommand {
    if Cached(store.processed, d.commandId) then store.processed[Find(store.processed, d.commandId)] else NewEntry(d)
  }

  function ReplyAck(store: Image, d: Delivery): Event {
    if Cached(store.processed, d.commandId) then
      Acked(d.commandId, AckStatus(Source(store, d)), Source(store, d).ackReason)
    else if Expired(d) then Acked(d.commandId, "rejected", "expired_ttl")
    else Acked(d.commandId, "received", "")
  }

  /** One of the at most two replies the delivery can give. */
  predicate DeliveryReply(store: Image, d: Delivery, e: Event) {
    e == Answered(d.commandId, Source(store, d).result) ||
    (e == ReplyAck(store, d) && (Cached(store.processed, d.commandId) ==> Source(store, d).requiresAck))
  }

  /** The plan without the final remembering of a new command. */
  function NewBody(c: Config, d: Delivery): seq<Action> {
    [Miss(d.commandId)] +
    if Expired(d) then
      SetLast(d.deliveryId) + [Ack(d, c.device, "rejected", "expired_ttl"), Answer(d, c.device, EXPIRED)]
    else BeforeAnswer(d, c.device, c.outOfOrder) + PlanTail(c, d)
  }

  function Body(c: Config, store: Image, d: Delivery): seq<Action> {
    if !Admitted(store, d) then []
    else if Cached(store.processed, d.commandId) then HitPlan(Source(store, d), d, c.device)
    else NewBody(c, d)
  }

  predicate IsNew(store: Image, d: Delivery) { Admitted(store, d) && !Cached(store.processed, d.commandId) }

  function Last(store: Image, d: Delivery): seq<Action> {
    if IsNew(store, d) then [RememberEntry(NewEntry(d))] else []
  }

  lemma NewIsBody(c: Config, d: Delivery)
    ensures NewPlan(d, c.device, c.outOfOrder) == NewBody(c, d) + [RememberEntry(NewEntry(d))]
  {
  }

  lemma PlanIsBody(c: Config, store: Image, d: Delivery)
    ensures Plan(store, d, c.device, c.outOfOrder) == Body(c, store, d) + Last(store, d)
  {
    NewIsBody(c, d);
  }

  /** What each action of a body is allowed to be. */
  predicate BodyAction(store: Image, d: Delivery, a: Action) {
    !a.RememberEntry? && !a.Restart? && (a.Enqueue? ==> DeliveryReply(store, d, EnqueueEvent(a.item)))
  }

  predicate AllBody(store: Image, d: Delivery, acts: seq<Action>) {
    forall a :: a in acts ==> BodyAction(store, d, a)
  }

  lemma JoinBody(store: Image, d: Delivery, a: seq<Action>, b: seq<Action>)
    requires AllBody(store, d, a) && AllBody(store, d, b)
    ensures AllBody(store, d, a + b)
  {
  }

  lemma HitBody(c: Config, store: Image, d: Delivery)
    requires Cached(store.processed, d.commandId)
    ensures AllBody(store, d, HitPlan(Source(store, d), d, c.device))
  {
  }

  lemma ExpiredBody(c: Config, store: Image, d: Delivery)
    requires !Cached(store.processed, d.commandId) && Expired(d)
    ensures AllBody(store, d, NewBody(c, d))
  {
  }

  lemma HandledBody(c: Config, store: Image, d: Delivery)
    requires !Cached(store.processed, d.commandId) && !Expired(d)
    ensures AllBody(store, d, NewBody(c, d))
  {
    var ack := Ack(d, c.device, "received", "");
    var w, v := When(d.requiresAck && !c.outOfOrder, ack), When(d.requiresAck && c.outOfOrder, ack);
    assert AllBody(store, d, w) && AllBody(store, d, v);
    assert AllBody(store, d, SetLast(d.deliveryId)) && AllBody(store, d, [Miss(d.commandId)]);
    assert AllBody(store, d, ExecutePlan(d)) && AllBody(store, d, [Answer(d, c.device, d.response)]);
    JoinBody(store, d, [Answer(d, c.device, d.response)], v);
    JoinBody(store, d, SetLast(d.deliveryId), w);
    JoinBody(store, d, SetLast(d.deliveryId) + w, ExecutePlan(d));
    JoinBody(store, d, BeforeAnswer(d, c.device, c.outOfOrder), PlanTail(c, d));
    JoinBody(store, d, [Miss(d.commandId)], BeforeAnswer(d, c.device, c.outOfOrder) + PlanTail(c, d));
  }

  /** A body only queues replies of its delivery and never touches the cache. */
  lemma BodyActions(c: Config, store: Image, d: Delivery)
    ensures AllBody(store, d, Body(c, store, d))
  {
    if Admitted(store, d) {
      if Cached(store.processed, d.commandId) {
        HitBody(c, store, d);
      } else if Expired(d) {
        ExpiredBody(c, store, d);
      } else {
        HandledBody(c, store, d);
      }
    }
  }

  lemma NewBodyStarts(c: Config, d: Delivery)
    ensures |NewBody(c, d)| > 1 && NewBody(c, d)[0] == Miss(d.commandId)
  {
  }

  lemma ReplyFits(store: Image, d: Delivery, e: Event)
    requires DeliveryReply(store, d, e)
    ensures Fits(Source(store, d), e) && e.id == d.commandId && IsReply(e)
    ensures EntryFits(store.processed, d.commandId, e)
  {
  }

  // Steps

  predicate Delivers(s: Step) { s.Deliver? || s.DieDuring? }

  predicate MayRestart(end: seq<Action>) { end == [] || (|end| == 1 && end[0].Restart?) }

  /** A delivering step does a prefix of its plan, and then may restart. */
  lemma StepCut(c: Config, m: Machine, s: Step) returns (n: nat, end: seq<Action>)
    requires Delivers(s)
    ensures var plan := Body(c, m.store, s.d) + Last(m.store, s.d);
            n <= |plan| && StepActions(c, m, s) == plan[..n] + end && MayRestart(end)
  {
    var plan := Body(c, m.store, s.d) + Last(m.store, s.d);
    PlanIsBody(c, m.store, s.d);
    n, end := |plan|, [];
    if s.DieDuring? {
      end := [Restart(s.files)];
      if s.upTo < |plan| { n := s.upTo; }
    }
    assert plan[..|plan|] == plan;
    assert plan + [] == plan;
  }

  lemma CutAgrees(plan: seq<Action>, n: nat, end: seq<Action>, id: string, e: Event)
    requires n <= |plan| && MayRestart(end)
    requires forall a :: a in plan ==> Agrees(a, id, e) || (a != plan[0] == Miss(id))
    ensures AllAgree(plan[..n] + end, id, e)
  {
    var acts := plan[..n] + end;
    forall k | 0 <= k < |acts| ensures Agrees(acts[k], id, e) || Miss(id) in acts[..k] {
      if k < n {
        assert acts[k] in plan;
        if k > 0 { assert acts[..k][0] == plan[0]; }
      }
    }
  }

  /** Whatever a step does about a command either agrees with its earlier replies or follows a miss. */
  lemma StepAgrees(c: Config, m: Machine, s: Step, id: string, e: Event)
    requires IsReply(e) && e.id == id
    ensures AllAgree(StepActions(c, m, s), id, e)
  {
    if Delivers(s) {
      var n, end := StepCut(c, m, s);
      var body, last := Body(c, m.store, s.d), Last(m.store, s.d);
      BodyActions(c, m.store, s.d);
      NewBodyStarts(c, s.d);
      forall a | a in body + last ensures Agrees(a, id, e) || (a != (body + last)[0] == Miss(id)) {
        if a in body { assert BodyAction(m.store, s.d, a); }
      }
      CutAgrees(body + last, n, end, id, e);
    }
  }

  /** Cache untouched by a stretch that neither remembers nor restarts. */
  predicate Steady(acts: seq<Action>) { forall a :: a in acts ==> !a.RememberEntry? && !a.Restart? }

  lemma ApplySteady(m: Machine, a: Action, saved: bool)
    requires !a.RememberEntry? && !a.Restart?
    ensures Apply(m, a, saved).store.processed == m.store.processed
  {
  }

  lemma {:induction false} ApplyAllSteady(m: Machine, acts: seq<Action>, disk: nat -> bool)
    requires Steady(acts)
    ensures ApplyAll(m, acts, disk).store.processed == m.store.processed
  {
    if acts != [] {
      var n := |acts| - 1;
      ApplyAllSteady(m, acts[..n], disk);
      ApplySteady(ApplyAll(m, acts[..n], disk), acts[n], disk(n));
    }
  }

  lemma RecordedReply(m: Machine, a: Action, saved: bool, e: Event)
    requires Recorded(m, a, saved, e) && IsReply(e)
    ensures a.Enqueue? && EnqueueEvent(a.item) == e
  {
    assert Apply(m, a, saved).history[|m.history|] == e;
  }

  /** The position in the body of an action that queues something. */
  lemma InBody(body: seq<Action>, last: seq<Action>, n: nat, end: seq<Action>, p: nat)
    requires n <= |body + last| && MayRestart(end)
    requires last == [] || (|last| == 1 && last[0].RememberEntry?)
    requires p < |(body + last)[..n] + end| && ((body + last)[..n] + end)[p].Enqueue?
    ensures p < |body| && ((body + last)[..n] + end)[p] == body[p]
    ensures ((body + last)[..n] + end)[..p + 1] == body[..p + 1]
  {
  }

  /** Where a step's reply comes from. */
  lemma FindReply(c: Config, m: Machine, s: Step, k: nat) returns (p: nat)
    requires |m.history| <= k < |After(c, m, s).history| && IsReply(After(c, m, s).history[k])
    ensures Delivers(s) && p < |Body(c, m.store, s.d)| && p < |StepActions(c, m, s)|
    ensures StepActions(c, m, s)[..p + 1] == Body(c, m.store, s.d)[..p + 1]
    ensures k == |ApplyAll(m, StepActions(c, m, s)[..p], s.disk).history|
    ensures DeliveryReply(m.store, s.d, After(c, m, s).history[k])
    ensures Recorded(ApplyAll(m, StepActions(c, m, s)[..p], s.disk), StepActions(c, m, s)[p], s.disk(p),
                     After(c, m, s).history[k])
  {
    var acts := StepActions(c, m, s);
    HistoryGrows(m, acts, s.disk);
    p := Locate(m, acts, s.disk, k);
    RecordedReply(ApplyAll(m, acts[..p], s.disk), acts[p], s.disk(p), After(c, m, s).history[k]);
    var n, end := StepCut(c, m, s);
    InBody(Body(c, m.store, s.d), Last(m.store, s.d), n, end, p);
    BodyActions(c, m.store, s.d);
    assert BodyAction(m.store, s.d, acts[p]);
  }

  lemma OnlySourceRemembered(c: Config, m: Machine, s: Step, a: Action)
    requires Delivers(s) && a in StepActions(c, m, s) && a.RememberEntry?
    ensures a.entry == Source(m.store, s.d)
  {
    var n, end := StepCut(c, m, s);
    BodyActions(c, m.store, s.d);
    assert a in Body(c, m.store, s.d) ==> BodyAction(m.store, s.d, a);
  }

  lemma RestAgrees(c: Config, m: Machine, s: Step, p: nat, e: Event)
    requires Delivers(s) && p < |StepActions(c, m, s)| && DeliveryReply(m.store, s.d, e)
    ensures AllAgree(StepActions(c, m, s)[p + 1..], s.d.commandId, e)
  {
    var rest := StepActions(c, m, s)[p + 1..];
    ReplyFits(m.store, s.d, e);
    forall k | 0 <= k < |rest| ensures Agrees(rest[k], s.d.commandId, e) {
      assert rest[k] in StepActions(c, m, s);
      if rest[k].RememberEntry? { OnlySourceRemembered(c, m, s, rest[k]); }
    }
  }

  lemma BodySteady(c: Config, store: Image, d: Delivery, p: nat)
    requires p <= |Body(c, store, d)|
    ensures Steady(Body(c, store, d)[..p])
  {
    BodyActions(c, store, d);
    forall a | a in Body(c, store, d)[..p] ensures !a.RememberEntry? && !a.Restart? {
      assert BodyAction(store, d, a);
    }
  }

  /** A reply is consistent at the end of the step that gave it. */
  lemma ReplyConsistent(c: Config, m: Machine, s: Step, k: nat)
    requires Sound(m)
    requires |m.history| <= k < |After(c, m, s).history| && IsReply(After(c, m, s).history[k])
    ensures Consistent(After(c, m, s), k, After(c, m, s).history[k].id)
  {
    var acts, e := StepActions(c, m, s), After(c, m, s).history[k];
    var p := FindReply(c, m, s, k);
    var m1 := ApplyAll(m, acts[..p + 1], s.disk);
    ReplyFits(m.store, s.d, e);
    BodySteady(c, m.store, s.d, p + 1);
    ApplyAllSteady(m, acts[..p + 1], s.disk);
    ApplyAllSound(m, acts[..p + 1], s.disk);
    AtReply(m, acts, s.disk, p, e);
    RestAgrees(c, m, s, p, e);
    ApplyAllConsistent(m1, acts[p + 1..], Later(s.disk, p + 1), k, e.id);
    ApplySplit(m, acts, s.disk, p + 1);
  }

  lemma AtReply(m: Machine, acts: seq<Action>, disk: nat -> bool, p: nat, e: Event)
    requires p < |acts| && Recorded(ApplyAll(m, acts[..p], disk), acts[p], disk(p), e)
    ensures ApplyAll(m, acts[..p + 1], disk).history == ApplyAll(m, acts[..p], disk).history + [e]
  {
    AgentDelivery.Step(m, acts[..p], acts[p], disk);
    assert acts[..p + 1] == acts[..p] + [acts[p]];
  }

  /** A reply to an uncached command comes after its miss, in the same step. */
  lemma MissBeforeReply(c: Config, m: Machine, s: Step, k: nat)
    requires |m.history| <= k < |After(c, m, s).history| && IsReply(After(c, m, s).history[k])
    requires Delivers(s) && !Cached(m.store.processed, s.d.commandId)
    ensures MissedIn(After(c, m, s).history[|m.history|..k], s.d.commandId)
  {
    var acts, h := StepActions(c, m, s), After(c, m, s).history;
    var p := FindReply(c, m, s, k);
    NewBodyStarts(c, s.d);
    assert acts[..p + 1][0] == Miss(s.d.commandId);
    RecordedReply(ApplyAll(m, acts[..p], s.disk), acts[p], s.disk(p), h[k]);
    assert acts[..p][0] == Miss(s.d.commandId);
    MissedPrefix(m, acts, s.disk, p, s.d.commandId);
  }

  lemma MissedPrefix(m: Machine, acts: seq<Action>, disk: nat -> bool, p: nat, id: string)
    requires p <= |acts| && Miss(id) in acts[..p]
    ensures |m.history| <= |ApplyAll(m, acts[..p], disk).history| <= |ApplyAll(m, acts, disk).history|
    ensures MissedIn(ApplyAll(m, acts, disk).history[|m.history|..|ApplyAll(m, acts[..p], disk).history|], id)
  {
    var q := ApplyAll(m, acts[..p], disk);
    MissRecorded(m, acts[..p], disk, id);
    PrefixHistory(m, acts, disk, p);
    assert ApplyAll(m, acts, disk).history[|m.history|..|q.history|] == Added(m, q);
  }

  lemma ApplySplit(m: Machine, acts: seq<Action>, disk: nat -> bool, p: nat)
    requires p <= |acts|
    ensures ApplyAll(m, acts, disk) == ApplyAll(ApplyAll(m, acts[..p], disk), acts[p..], Later(disk, p))
  {
    assert acts[..p] + acts[p..] == acts;
    ApplyConcat(m, acts[..p], acts[p..], disk);
  }

  lemma PrefixHistory(m: Machine, acts: seq<Action>, disk: nat -> bool, p: nat)
    requires p <= |acts|
    ensures ApplyAll(m, acts[..p], disk).history <= ApplyAll(m, acts, disk).history
  {
    ApplySplit(m, acts, disk, p);
    HistoryGrows(ApplyAll(m, acts[..p], disk), acts[p..], Later(disk, p));
  }

  // Runs

  predicate SameKind(a: Event, b: Event) { (a.Answered? && b.Answered?) || (a.Acked? && b.Acked?) }

  lemma {:induction false} RunConsistent(c: Config, m: Machine, steps: seq<Step>, i: nat)
    requires Initial(m) && i < |Run(c, m, steps).history| && IsReply(Run(c, m, steps).history[i])
    ensures Consistent(Run(c, m, steps), i, Run(c, m, steps).history[i].id)
  {
    if steps != [] {
      var n := |steps| - 1;
      var p, s := Run(c, m, steps[..n]), steps[n];
      LastStep(c, m, steps);
      if i < |p.history| {
        RunConsistent(c, m, steps[..n], i);
        StepAgrees(c, p, s, p.history[i].id, p.history[i]);
        ApplyAllConsistent(p, StepActions(c, p, s), s.disk, i, p.history[i].id);
      } else {
        ReplyConsistent(c, p, s, i);
      }
    }
  }

  lemma ForgottenSlice(h: seq<Event>, h': seq<Event>, i: nat, j: nat, id: string)
    requires h <= h' && i < |h| <= j <= |h'| && !Forgotten(h'[i + 1..j], id)
    ensures !Forgotten(h[i + 1..], id) && !MissedIn(h'[|h|..j], id)
  {
  }

  /** A step's reply repeats every earlier one that has not been forgotten. */
  lemma RepeatedReply(c: Config, p: Machine, s: Step, i: nat, j: nat)
    requires Sound(p) && i < |p.history| <= j < |After(c, p, s).history|
    requires p.history <= After(c, p, s).history && IsReply(p.history[i]) && Consistent(p, i, p.history[i].id)
    requires SameKind(p.history[i], After(c, p, s).history[j]) && After(c, p, s).history[j].id == p.history[i].id
    requires p.history[i].id != "" && !Forgotten(After(c, p, s).history[i + 1..j], p.history[i].id)
    ensures After(c, p, s).history[j] == p.history[i]
  {
    var h := After(c, p, s).history;
    var at := FindReply(c, p, s, j);
    ReplyFits(p.store, s.d, h[j]);
    ForgottenSlice(p.history, h, i, j, h[j].id);
    if !Cached(p.store.processed, s.d.commandId) {
      MissBeforeReply(c, p, s, j);
    }
  }

  /** Two replies of one kind in one step are the same reply. */
  lemma TwiceInStep(c: Config, p: Machine, s: Step, i: nat, j: nat)
    requires |p.history| <= i < j < |After(c, p, s).history|
    requires SameKind(After(c, p, s).history[i], After(c, p, s).history[j])
    ensures After(c, p, s).history[i] == After(c, p, s).history[j]
  {
    var a := FindReply(c, p, s, i);
    var b := FindReply(c, p, s, j);
  }

  /**
   Idempotent answers.  In every run, two results (or two acknowledgements)
   queued for one command are the same, unless the command was looked up in
   vain in between or a restart lost cached commands.
   */
  lemma {:induction false} SameAnswer(c: Config, m: Machine, steps: seq<Step>, i: nat, j: nat)
    requires Initial(m) && i < j < |Run(c, m, steps).history|
    requires SameKind(Run(c, m, steps).history[i], Run(c, m, steps).history[j])
    requires Run(c, m, steps).history[i].id == Run(c, m, steps).history[j].id != ""
    requires !Forgotten(Run(c, m, steps).history[i + 1..j], Run(c, m, steps).history[j].id)
    ensures Run(c, m, steps).history[i] == Run(c, m, steps).history[j]
  {
    if steps != [] {
      var n := |steps| - 1;
      var p, s := Run(c, m, steps[..n]), steps[n];
      LastStep(c, m, steps);
      if j < |p.history| {
        assert Run(c, m, steps).history[i + 1..j] == p.history[i + 1..j];
        SameAnswer(c, m, steps[..n], i, j);
      } else if i < |p.history| {
        RunConsistent(c, m, steps[..n], i);
        RepeatedReply(c, p, s, i, j);
      } else {
        TwiceInStep(c, p, s, i, j);
      }
    }
  }

  // One result per delivery

  /** What the actions put in the outbox, in order. */
  function Queued(acts: seq<Action>): seq<OutboxItem> {
    if acts == [] then [] else (if acts[0].Enqueue? then [acts[0].item] else []) + Queued(acts[1..])
  }

  lemma {:induction false} QueuedConcat(a: seq<Action>, b: seq<Action>)
    ensures Queued(a + b) == Queued(a) + Queued(b)
  {
    if a == [] {
      assert a + b == b;
    } else {
      assert (a + b)[1..] == a[1..] + b && (a + b)[0] == a[0];
      QueuedConcat(a[1..], b);
    }
  }

  lemma QueuedOne(a: Action)
    ensures Queued([a]) == if a.Enqueue? then [a.item] else []
  {
  }

  function QueuedWhen(b: bool, item: OutboxItem): seq<OutboxItem> { if b then [item] else [] }

  lemma QueuedParts(d: Delivery, b: bool, item: OutboxItem)
    ensures Queued(SetLast(d.deliveryId)) == [] && Queued(ExecutePlan(d)) == [] && Queued([Miss(d.commandId)]) == []
    ensures Queued(When(b, Enqueue(item))) == QueuedWhen(b, item)
  {
    QueuedOne(Enqueue(item));
    QueuedOne(SetLastDelivery(d.deliveryId));
    QueuedOne(Miss(d.commandId));
    QueuedOne(TakeSequence);
    QueuedOne(Execute(d.commandId));
    QueuedConcat(When(d.capable, TakeSequence), When(d.capable && d.reachesDaemon, Execute(d.commandId)));
  }

  function ResultOf(c: Config, store: Image, d: Delivery): OutboxItem {
    ResultItem(d.resultAt, d.commandId, c.device, Source(store, d).result)
  }

  lemma HitQueues(c: Config, entry: ProcessedCommand, d: Delivery)
    ensures Queued(HitPlan(entry, d, c.device))
            == QueuedWhen(entry.requiresAck, AckItem(d.ackAt, d.commandId, c.device, AckStatus(entry), entry.ackReason))
               + [ResultItem(d.resultAt, d.commandId, c.device, entry.result)]
  {
    var ack := AckItem(d.ackAt, d.commandId, c.device, AckStatus(entry), entry.ackReason);
    var a, b := When(entry.requiresAck, Enqueue(ack)), [Answer(d, c.device, entry.result)];
    QueuedParts(d, entry.requiresAck, ack);
    QueuedOne(b[0]);
    QueuedConcat(a, b);
    QueuedConcat(a + b, SetLast(d.deliveryId));
  }

  lemma QueuedThree(a: OutboxItem, b: OutboxItem, r: ProcessedCommand)
    ensures Queued([Enqueue(a), Enqueue(b), RememberEntry(r)]) == [a, b]
  {
    var x, y, z := Enqueue(a), Enqueue(b), RememberEntry(r);
    QueuedOne(z);
    assert [x, y, z][1..] == [y, z] && [y, z][1..] == [z];
  }

  lemma ExpiredQueues(c: Config, d: Delivery)
    ensures Queued(ExpiredPlan(d, c.device))
            == [AckItem(d.ackAt, d.commandId, c.device, "rejected", "expired_ttl"),
                ResultItem(d.resultAt, d.commandId, c.device, EXPIRED)]
  {
    var a := AckItem(d.ackAt, d.commandId, c.device, "rejected", "expired_ttl");
    var b := ResultItem(d.resultAt, d.commandId, c.device, EXPIRED);
    QueuedParts(d, false, a);
    QueuedThree(a, b, ExpiredEntry(d));
    QueuedConcat(SetLast(d.deliveryId), [Enqueue(a), Enqueue(b), RememberEntry(ExpiredEntry(d))]);
  }

  lemma BeforeQueues(c: Config, d: Delivery, ack: OutboxItem)
    requires ack == AckItem(d.ackAt, d.commandId, c.device, "received", "")
    ensures Queued(BeforeAnswer(d, c.device, c.outOfOrder)) == QueuedWhen(d.requiresAck && !c.outOfOrder, ack)
  {
    var w := When(d.requiresAck && !c.outOfOrder, Enqueue(ack));
    QueuedParts(d, d.requiresAck && !c.outOfOrder, ack);
    QueuedConcat(SetLast(d.deliveryId), w);
    QueuedConcat(SetLast(d.deliveryId) + w, ExecutePlan(d));
  }

  lemma AnswerQueues(c: Config, d: Delivery, ack: OutboxItem)
    requires ack == AckItem(d.ackAt, d.commandId, c.device, "received", "")
    ensures Queued(AnswerAndRemember(d, c.device, c.outOfOrder))
            == [ResultItem(d.resultAt, d.commandId, c.device, d.response)]
               + QueuedWhen(d.requiresAck && c.outOfOrder, ack)
  {
    var v := When(d.requiresAck && c.outOfOrder, Enqueue(ack));
    var b, r := [Answer(d, c.device, d.response)], [RememberEntry(HandledEntry(d))];
    QueuedParts(d, d.requiresAck && c.outOfOrder, ack);
    QueuedOne(b[0]);
    QueuedOne(r[0]);
    QueuedConcat(b, v);
    QueuedConcat(b + v, r);
  }

  lemma HandledQueues(c: Config, d: Delivery, ack: OutboxItem)
    requires ack == AckItem(d.ackAt, d.commandId, c.device, "received", "")
    ensures Queued(HandlePlan(d, c.device, c.outOfOrder))
            == QueuedWhen(d.requiresAck && !c.outOfOrder, ack)
               + ([ResultItem(d.resultAt, d.commandId, c.device, d.response)]
                  + QueuedWhen(d.requiresAck && c.outOfOrder, ack))
  {
    BeforeQueues(c, d, ack);
    AnswerQueues(c, d, ack);
    QueuedConcat(BeforeAnswer(d, c.device, c.outOfOrder), AnswerAndRemember(d, c.device, c.outOfOrder));
  }

  lemma MissQueues(d: Delivery, rest: seq<Action>)
    ensures Queued([Miss(d.commandId)] + rest) == Queued(rest)
  {
  }

  /** The acknowledgements, none or one, that go with a delivery's result. */
  function AcksOf(c: Config, store: Image, d: Delivery): seq<OutboxItem> {
    var entry := Source(store, d);
    if Cached(store.processed, d.commandId) then
      QueuedWhen(entry.requiresAck, AckItem(d.ackAt, d.commandId, c.device, AckStatus(entry), entry.ackReason))
    else if Expired(d) then [AckItem(d.ackAt, d.commandId, c.device, "rejected", "expired_ttl")]
    else QueuedWhen(d.requiresAck, AckItem(d.ackAt, d.commandId, c.device, "received", ""))
  }

  lemma NewQueues(c: Config, store: Image, d: Delivery)
    requires !Cached(store.processed, d.commandId)
    ensures Queued(NewPlan(d, c.device, c.outOfOrder))
            == if c.outOfOrder && !Expired(d) then [ResultOf(c, store, d)] + AcksOf(c, store, d)
               else AcksOf(c, store, d) + [ResultOf(c, store, d)]
  {
    if Expired(d) {
      MissQueues(d, ExpiredPlan(d, c.device));
      ExpiredQueues(c, d);
    } else {
      MissQueues(d, HandlePlan(d, c.device, c.outOfOrder));
      HandledQueues(c, d, AckItem(d.ackAt, d.commandId, c.device, "received", ""));
    }
  }

  /**
   A delivery that passes the checks queues exactly one result, of the entry it
   answers from, and at most one acknowledgement; the acknowledgement comes
   first unless the out-of-order fault is on and the command is new.  Any other
   delivery queues nothing.
   */
  lemma OneResult(c: Config, store: Image, d: Delivery)
    ensures var queued := Queued(Plan(store, d, c.device, c.outOfOrder));
            var result, acks := ResultOf(c, store, d), AcksOf(c, store, d);
            if !Admitted(store, d) then queued == []
            else if c.outOfOrder && IsNew(store, d) && !Expired(d) then queued == [result] + acks
            else queued == acks + [result]
    ensures |AcksOf(c, store, d)| <= 1
    ensures forall a :: a in AcksOf(c, store, d) ==> a.kind == ACK && a.commandId == d.commandId
    ensures ResultOf(c, store, d).kind == RESULT && ResultOf(c, store, d).result == Source(store, d).result
    ensures AcksOf(c, store, d) != [] <==>
              Source(store, d).requiresAck || (!Cached(store.processed, d.commandId) && Expired(d))
  {
    if Admitted(store, d) {
      if Cached(store.processed, d.commandId) {
        HitQueues(c, Source(store, d), d);
      } else {
        NewQueues(c, store, d);
      }
    }
  }

  // Redelivery

  /** Only this id is noted as the last delivery, and no restart undoes it. */
  predicate Notes(acts: seq<Action>, id: string) {
    forall a :: a in acts ==> !a.Restart? && (a.SetLastDelivery? ==> a.id == id)
  }

  lemma ApplyNotes(m: Machine, a: Action, saved: bool, id: string)
    requires !a.Restart? && (a.SetLastDelivery? ==> a.id == id)
    requires m.store.lastDeliveryId == id || a == SetLastDelivery(id)
    ensures Apply(m, a, saved).store.lastDeliveryId == id
  {
  }

  lemma {:induction false} ApplyAllNotes(m: Machine, acts: seq<Action>, disk: nat -> bool, id: string)
    requires Notes(acts, id) && SetLastDelivery(id) in acts
    ensures ApplyAll(m, acts, disk).store.lastDeliveryId == id
  {
    var n := |acts| - 1;
    assert acts == acts[..n] + [acts[n]];
    if SetLastDelivery(id) in acts[..n] { ApplyAllNotes(m, acts[..n], disk, id); }
    ApplyNotes(ApplyAll(m, acts[..n], disk), acts[n], disk(n), id);
  }

  lemma NotesJoin(a: seq<Action>, b: seq<Action>, id: string)
    requires Notes(a, id) && Notes(b, id)
    ensures Notes(a + b, id)
  {
  }

  lemma BodyNotes(c: Config, store: Image, d: Delivery)
    requires Admitted(store, d) && d.deliveryId != ""
    ensures Notes(Body(c, store, d), d.deliveryId) && SetLastDelivery(d.deliveryId) in Body(c, store, d)
  {
    if Cached(store.processed, d.commandId) {
      HitNotes(c, Source(store, d), d);
    } else {
      NewNotes(c, d);
    }
  }

  lemma HitNotes(c: Config, entry: ProcessedCommand, d: Delivery)
    requires d.deliveryId != ""
    ensures Notes(HitPlan(entry, d, c.device), d.deliveryId)
    ensures SetLastDelivery(d.deliveryId) in HitPlan(entry, d, c.device)
  {
  }

  lemma NewNotes(c: Config, d: Delivery)
    requires d.deliveryId != ""
    ensures Notes(NewBody(c, d), d.deliveryId) && SetLastDelivery(d.deliveryId) in NewBody(c, d)
  {
    assert SetLastDelivery(d.deliveryId) in SetLast(d.deliveryId);
    assert Notes(ExecutePlan(d), d.deliveryId) && Notes(PlanTail(c, d), d.deliveryId);
  }

  /** A delivery that was just handled is ignored when it comes again, whatever it then contains. */
  lemma RedeliveryIgnored(c: Config, m: Machine, d: Delivery, disk: nat -> bool, again: Delivery)
    requires Admitted(m.store, d) && d.deliveryId != "" && again.deliveryId == d.deliveryId
    ensures var m' := After(c, m, Deliver(d, disk));
            m'.store.lastDeliveryId == d.deliveryId && StepActions(c, m', Deliver(again, disk)) == []
  {
    var body, last := Body(c, m.store, d), Last(m.store, d);
    PlanIsBody(c, m.store, d);
    BodyNotes(c, m.store, d);
    NotesJoin(body, last, d.deliveryId);
    ApplyAllNotes(m, body + last, disk, d.deliveryId);
  }
}
