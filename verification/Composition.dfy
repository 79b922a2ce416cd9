/**
 The agent and the C daemon together.  Every number on a privileged request
 comes from the agent's one counter, requests reach the daemon in the order
 they were numbered, and so a request the agent has just made is never taken
 for a replay.
 */
module Composition {
  import opened Json
  import opened CanonicalForm
  import opened Timestamps
  import opened AgentDelivery
  import Agent = AgentRuns
  import Numbers = AgentNumbers
  import opened PrivilegedDaemon
  import opened RequestChecks
  import Daemon = DaemonRuns
  import Wire = SignedRequest

  // The agent's numbers start above its counter

  /** Every number issued so far is above `base`, and so is the next. */
  predicate Above(m: Machine, base: int) {
    base <= m.store.sequence && forall e :: e in m.history ==> e.Issued? ==> base < e.number
  }

  lemma ApplyAbove(m: Machine, a: Action, base: int)
    requires Numbers.Durable(m) && Above(m, base) && (a.Restart? ==> a.files.state)
    ensures Above(Apply(m, a, true), base)
  {
  }

  lemma {:induction false} ApplyAllAbove(m: Machine, acts: seq<Action>, disk: nat -> bool, base: int)
    requires Numbers.Durable(m) && Above(m, base) && Numbers.Reads(acts) && forall k: nat :: disk(k)
    ensures Above(ApplyAll(m, acts, disk), base)
  {
    if acts != [] {
      var n := |acts| - 1;
      ApplyAllAbove(m, acts[..n], disk, base);
      Numbers.ApplyAllDurable(m, acts[..n], disk);
      ApplyAbove(ApplyAll(m, acts[..n], disk), acts[n], base);
    }
  }

  lemma {:induction false} RunAbove(c: Agent.Config, m: Machine, steps: seq<Agent.Step>)
    requires Numbers.Durable(m) && m.history == [] && Numbers.AllWork(steps)
    ensures Above(Agent.Run(c, m, steps), m.store.sequence)
  {
    if steps != [] {
      var n := |steps| - 1;
      var p := Agent.Run(c, m, steps[..n]);
      RunAbove(c, m, steps[..n]);
      Numbers.RunDurable(c, m, steps[..n]);
      Numbers.StepReads(c, p, steps[n]);
      ApplyAllAbove(p, Agent.StepActions(c, p, steps[n]), steps[n].disk, m.store.sequence);
    }
  }

  // The daemon sees rising numbers

  predicate Rising(steps: seq<Daemon.Step>) {
    forall i, j :: 0 <= i < j < |steps| ==> steps[i].request.sequence < steps[j].request.sequence
  }

  /** Fed rising numbers from above the persisted one, the daemon's persisted number stays below the next. */
  lemma {:induction false} PersistedBelow(dir: string, s: State, steps: seq<Daemon.Step>, k: nat)
    requires Rising(steps) && k < |steps| && Daemon.Persisted(dir, s).Some?
    requires forall i :: 0 <= i < |steps| ==> Daemon.Persisted(dir, s).value < steps[i].request.sequence
    ensures var last := Daemon.Persisted(dir, Daemon.Run(dir, s, steps[..k]));
            last.Some? && last.value < steps[k].request.sequence
  {
    if k > 0 {
      PersistedBelow(dir, s, steps, k - 1);
      assert steps[..k][..k - 1] == steps[..k - 1] && steps[..k][k - 1] == steps[k - 1];
      var p := Daemon.Run(dir, s, steps[..k - 1]);
      Daemon.HandleSequence(dir, p, steps[k - 1]);
      Daemon.LogGrows(dir, p, steps[k - 1]);
    }
  }

  /** Each daemon step carries a number issued in the agent's history, in the order of issue. */
  predicate SentInOrder(h: seq<Event>, picks: seq<nat>, steps: seq<Daemon.Step>) {
    && |picks| == |steps|
    && (forall i :: 0 <= i < |picks| ==>
          picks[i] < |h| && h[picks[i]].Issued? && steps[i].request.sequence == h[picks[i]].number)
    && forall i, j :: 0 <= i < j < |picks| ==> picks[i] < picks[j]
  }

  lemma SentRising(c: Agent.Config, m: Machine, agentSteps: seq<Agent.Step>, picks: seq<nat>, steps: seq<Daemon.Step>)
    requires Agent.Initial(m) && m.store == m.storeFile && Numbers.AllWork(agentSteps)
    requires SentInOrder(Agent.Run(c, m, agentSteps).history, picks, steps)
    ensures Rising(steps) && forall i :: 0 <= i < |steps| ==> m.store.sequence < steps[i].request.sequence
  {
    var h := Agent.Run(c, m, agentSteps).history;
    RunAbove(c, m, agentSteps);
    forall i, j | 0 <= i < j < |steps| ensures steps[i].request.sequence < steps[j].request.sequence {
      Numbers.DurableRuns(c, m, agentSteps, picks[i], picks[j]);
    }
  }

  predicate IsReplay(r: Reply) { r.Refused? && r.reason.code == REPLAY }

  /**
   No false replays.  However often agent and daemon restart, as long as the
   agent's state file can be written and read and the daemon's number starts no
   higher than the agent's, no request that passes the daemon's checks is refused
   as a replay, whatever fails on the daemon's side.
   */
  lemma FreshNeverReplayed(c: Agent.Config, m: Machine, agentSteps: seq<Agent.Step>,
                           dir: string, s: State, picks: seq<nat>, steps: seq<Daemon.Step>, k: nat)
    requires Agent.Initial(m) && m.store == m.storeFile && Numbers.AllWork(agentSteps)
    requires Daemon.Persisted(dir, s).Some? && Daemon.Persisted(dir, s).value <= m.store.sequence
    requires SentInOrder(Agent.Run(c, m, agentSteps).history, picks, steps) && k < |steps|
    ensures var p := Daemon.Run(dir, s, steps[..k]);
            Checked(steps[k].request) ==> !IsReplay(Handle(dir, p, steps[k].request, steps[k].world).1)
  {
    SentRising(c, m, agentSteps, picks, steps);
    PersistedBelow(dir, s, steps, k);
    var p, r, w := Daemon.Run(dir, s, steps[..k]), steps[k].request, steps[k].world;
    if Checked(r) { NotReplay(dir, p, r, w); }
  }

  lemma NotReplay(dir: string, p: State, r: Request, w: World)
    requires Checked(r) && Daemon.Persisted(dir, p).Some? && Daemon.Persisted(dir, p).value < r.sequence
    ensures !IsReplay(Handle(dir, p, r, w).1)
  {
  }

  /**
   Exactly when a request is taken for a replay, if the daemon can read its
   files and has no reply for it: its number is not above the persisted one, as
   after a restart that made the agent count from one again.
   */
  lemma ReplayIff(dir: string, p: State, r: Request, w: World)
    requires Checked(r) && ResponsePath(dir, Slot(r.id)) !in p.files && w.cacheReadable && w.sequenceReadable
    requires Daemon.Persisted(dir, p).Some?
    ensures IsReplay(Handle(dir, p, r, w).1) <==> r.sequence <= Daemon.Persisted(dir, p).value
  {
  }

  // From the request the agent builds to the reply

  /** Nesting and numbers with which the daemon recomputes the signed bytes. */
  predicate Signable(f: Wire.Fields, sig: string) {
    Depth(Wire.Payload(f, sig)) <= Wire.NESTING_LIMIT && AllNumbers(Wire.SafeNumber, Wire.Payload(f, ""))
  }

  /** An untouched request passes the daemon's checks exactly if its time stamp parses and it is signable. */
  lemma CheckedIff(f: Wire.Fields, sign: string -> string, verify: (string, string) -> bool)
    requires forall m, t :: verify(t, sign(m)) <==> t == m
    requires SafeId(Slot(f.requestId)) && Wire.NulFreeTree(Wire.Payload(f, sign(Canonical(Wire.Payload(f, "")))))
    requires AllNumbers(Wire.Within53, Wire.Payload(f, ""))
    ensures var sig := sign(Canonical(Wire.Payload(f, "")));
            Checked(Arrives(Wire.Payload(f, sig), true, verify)) <==> ParsesTime(f.timestamp) && Signable(f, sig)
  {
    Wire.UntouchedRequestVerifies(f, sign, verify);
    AgentRequestArrives(f, sign(Canonical(Wire.Payload(f, ""))), verify);
  }

  /**
   End to end.  A request built, stamped and signed by the agent with the number
   it has just taken, with a new id, is executed once and answered with the executor's
   answer, after any earlier requests and any earlier failures.
   */
  lemma FreshRequestServed(c: Agent.Config, m: Machine, agentSteps: seq<Agent.Step>,
                           dir: string, s: State, picks: seq<nat>, steps: seq<Daemon.Step>, k: nat,
                           f: Wire.Fields, t: Time, sign: string -> string, verify: (string, string) -> bool)
    requires Agent.Initial(m) && m.store == m.storeFile && Numbers.AllWork(agentSteps)
    requires Daemon.Persisted(dir, s).Some? && Daemon.Persisted(dir, s).value <= m.store.sequence
    requires SentInOrder(Agent.Run(c, m, agentSteps).history, picks, steps) && k < |steps|
    requires forall m, t :: verify(t, sign(m)) <==> t == m
    requires SafeId(Slot(f.requestId)) && ValidTime(t) && f.timestamp == IsoTime(t)
    requires Signable(f, sign(Canonical(Wire.Payload(f, ""))))
    requires Wire.NulFreeTree(Wire.Payload(f, sign(Canonical(Wire.Payload(f, "")))))
    requires steps[k].request == Arrives(Wire.Payload(f, sign(Canonical(Wire.Payload(f, "")))), true, verify)
    requires Daemon.Healthy(steps[k].world)
    requires ResponsePath(dir, Slot(f.requestId)) !in Daemon.Run(dir, s, steps[..k]).files
    ensures var p := Daemon.Run(dir, s, steps[..k]);
            var (p', reply) := Handle(dir, p, steps[k].request, steps[k].world);
            reply == Stored(steps[k].world.executor.text) &&
            p'.log == p.log + [Execution(Slot(f.requestId), f.sequence, true)]
  {
    AgentStampParses(t);
    AllNumbersImplies(Wire.SafeNumber, Wire.Within53, Wire.Payload(f, ""));
    CheckedIff(f, sign, verify);
    AgentRequestArrives(f, sign(Canonical(Wire.Payload(f, ""))), verify);
    SentRising(c, m, agentSteps, picks, steps);
    PersistedBelow(dir, s, steps, k);
    Daemon.HealthyServes(dir, Daemon.Run(dir, s, steps[..k]), steps[k].request, steps[k].world);
  }
}
