/**
 Runs of the Python daemon: connections in any order, cut short by exceptions
 or crashes anywhere, with any clock.
 */
module PythonRuns {
  import opened PythonDaemon

  datatype Step =
    | Connect(c: Connection)
    | CrashIn(c: Connection, upTo: nat, readable: bool)
    | Reboot(readable: bool)

  function Upto(acts: seq<Action>, n: nat): seq<Action> { if n < |acts| then acts[..n] else acts }

  function StepActions(m: Machine, s: Step, window: real): seq<Action> {
    match s
    case Connect(c) => Plan(m.memory, c, window)
    case CrashIn(c, n, readable) => Upto(Plan(m.memory, c, window), n) + [Restart(readable)]
    case Reboot(readable) => [Restart(readable)]
  }

  function After(m: Machine, s: Step, window: real): Machine { ApplyAll(m, StepActions(m, s, window)) }

  function Run(m: Machine, steps: seq<Step>, window: real): Machine {
    if steps == [] then m else After(Run(m, steps[..|steps| - 1], window), steps[|steps| - 1], window)
  }

  lemma {:induction false} LogGrows(m: Machine, acts: seq<Action>)
    ensures m.log <= ApplyAll(m, acts).log
    decreases |acts|
  {
    if acts != [] { LogGrows(Apply(m, acts[0]), acts[1..]); }
  }

  // At most once per key and number

  /** The numbers were forgotten: a reset, or a restart that could not read the file. */
  predicate Forgets(e: Event) { e == Reset || e == Restarted(false) }

  predicate ForgotNumbers(es: seq<Event>) { exists k :: 0 <= k < |es| && Forgets(es[k]) }

  /** The number of the execution at `i` is taken, in memory and on disk, or numbers were forgotten since. */
  predicate Taken(m: Machine, i: nat) {
    i < |m.log| && m.log[i].Executed? &&
    (ForgotNumbers(m.log[i + 1..]) ||
     (m.log[i].number <= Last(m.memory, m.log[i].kid) && m.log[i].number <= Last(m.file, m.log[i].kid)))
  }

  lemma ForgotLater(es: seq<Event>, more: seq<Event>)
    requires ForgotNumbers(es)
    ensures ForgotNumbers(es + more)
  {
    var k :| 0 <= k < |es| && Forgets(es[k]);
    assert (es + more)[k] == es[k];
  }

  lemma ApplyTaken(m: Machine, a: Action, i: nat)
    requires Taken(m, i)
    ensures Taken(Apply(m, a), i)
  {
    var m', es := Apply(m, a), m.log[i + 1..];
    if m'.log != m.log {
      var e := m'.log[|m.log|];
      assert m'.log[i + 1..] == es + [e];
      if ForgotNumbers(es) {
        ForgotLater(es, [e]);
      } else if Forgets(e) {
        assert (es + [e])[|es|] == e;
      }
    }
  }

  lemma {:induction false} ApplyAllTaken(m: Machine, acts: seq<Action>, i: nat)
    requires Taken(m, i)
    ensures Taken(ApplyAll(m, acts), i)
    decreases |acts|
  {
    if acts != [] {
      ApplyTaken(m, acts[0], i);
      ApplyAllTaken(Apply(m, acts[0]), acts[1..], i);
    }
  }

  predicate NoPerform(acts: seq<Action>) { forall a :: a in acts ==> !a.Perform? }

  /** Actions other than `Perform` record no execution. */
  lemma {:induction false} NoPerformNoExecution(m: Machine, acts: seq<Action>, k: nat)
    requires NoPerform(acts) && |m.log| <= k < |ApplyAll(m, acts).log|
    ensures !ApplyAll(m, acts).log[k].Executed?
    decreases |acts|
  {
    var m1 := Apply(m, acts[0]);
    assert acts[0] in acts;
    LogGrows(m1, acts[1..]);
    if k >= |m1.log| { NoPerformNoExecution(m1, acts[1..], k); }
  }

  predicate Delivers(s: Step) { s.Connect? || s.CrashIn? }

  predicate Executes(d: Data, c: Connection) {
    c.id !in d.cache && c.timely && c.signed && c.number > Last(d, c.kid) && c.claimSaved
  }

  lemma CacheQuiet(c: Connection, response: string, window: real, audited: bool)
    ensures NoPerform(CachePlan(c, response, window, audited))
  {
  }

  lemma RestQuiet(c: Connection, window: real)
    ensures NoPerform(EffectPlan(c.effect) + CachePlan(c, c.response, window, c.audited))
  {
  }

  lemma PlanShape(d: Data, c: Connection, window: real)
    ensures if Executes(d, c) then
              |Plan(d, c, window)| >= 2 && Plan(d, c, window)[0] == Claim(c.kid, c.number, true) &&
              Plan(d, c, window)[1] == Perform(c.kid, c.number, c.id) && NoPerform(Plan(d, c, window)[2..])
            else NoPerform(Plan(d, c, window))
  {
    CacheQuiet(c, c.timeError, window, true);
    CacheQuiet(c, c.signatureError, window, true);
    CacheQuiet(c, c.replayError, window, true);
    RestQuiet(c, window);
    if Executes(d, c) {
      assert Plan(d, c, window)[2..] == EffectPlan(c.effect) + CachePlan(c, c.response, window, c.audited);
    }
  }

  lemma QuietCut(acts: seq<Action>, n: nat, readable: bool)
    requires NoPerform(acts)
    ensures NoPerform(Upto(acts, n) + [Restart(readable)])
  {
  }

  lemma CutTail(acts: seq<Action>, n: nat, readable: bool)
    requires |acts| >= 2 && NoPerform(acts[2..])
    ensures var cut := Upto(acts, n) + [Restart(readable)];
            if n >= 2 then |cut| >= 2 && cut[..2] == acts[..2] && NoPerform(cut[2..])
            else NoPerform(cut[1..]) && (n == 1 ==> cut[0] == acts[0]) && (n == 0 ==> cut == [Restart(readable)])
  {
  }

  /** A step executes nothing, or first claims and then executes its own request. */
  lemma StepShape(m: Machine, s: Step, window: real)
    ensures var acts := StepActions(m, s, window);
            NoPerform(acts) ||
            (Delivers(s) && Executes(m.memory, s.c) && |acts| >= 2 && acts[0] == Claim(s.c.kid, s.c.number, true) &&
             acts[1] == Perform(s.c.kid, s.c.number, s.c.id) && NoPerform(acts[2..]))
  {
    if Delivers(s) {
      PlanShape(m.memory, s.c, window);
      if s.CrashIn? {
        var plan := Plan(m.memory, s.c, window);
        if Executes(m.memory, s.c) {
          CutTail(plan, s.upTo, s.readable);
          var cut := StepActions(m, s, window);
          if s.upTo >= 2 {
            assert cut[0] == cut[..2][0] && cut[1] == cut[..2][1];
          } else {
            assert cut == cut[..1] + cut[1..];
          }
        } else {
          QuietCut(plan, s.upTo, s.readable);
        }
      }
    }
  }

  lemma TwoThenRest(m: Machine, acts: seq<Action>)
    requires |acts| >= 2
    ensures ApplyAll(m, acts) == ApplyAll(Apply(Apply(m, acts[0]), acts[1]), acts[2..])
  {
  }

  lemma ClaimPerform(m: Machine, c: Connection)
    requires c.number > Last(m.memory, c.kid)
    ensures var m' := Apply(Apply(m, Claim(c.kid, c.number, true)), Perform(c.kid, c.number, c.id));
            m'.log == m.log + [Executed(c.kid, c.number, c.id)] && Taken(m', |m.log|)
  {
  }

  /** An execution recorded by a step is of its own request, whose number was above the last one. */
  lemma StepExecutes(m: Machine, s: Step, window: real, k: nat)
    requires |m.log| <= k < |After(m, s, window).log| && After(m, s, window).log[k].Executed?
    ensures k == |m.log| && Delivers(s) && Executes(m.memory, s.c)
    ensures After(m, s, window).log[k] == Executed(s.c.kid, s.c.number, s.c.id) && Taken(After(m, s, window), k)
  {
    var acts := StepActions(m, s, window);
    StepShape(m, s, window);
    if NoPerform(acts) {
      NoPerformNoExecution(m, acts, k);
    } else {
      var m2 := Apply(Apply(m, acts[0]), acts[1]);
      ClaimPerform(m, s.c);
      TwoThenRest(m, acts);
      LogGrows(m2, acts[2..]);
      if k >= |m2.log| { NoPerformNoExecution(m2, acts[2..], k); }
      ApplyAllTaken(m2, acts[2..], |m.log|);
    }
  }

  lemma {:induction false} RunTaken(m: Machine, steps: seq<Step>, window: real, i: nat)
    requires m.log == [] && i < |Run(m, steps, window).log| && Run(m, steps, window).log[i].Executed?
    ensures Taken(Run(m, steps, window), i)
  {
    if steps != [] {
      var n := |steps| - 1;
      var p := Run(m, steps[..n], window);
      LogGrows(p, StepActions(p, steps[n], window));
      if i < |p.log| {
        RunTaken(m, steps[..n], window, i);
        ApplyAllTaken(p, StepActions(p, steps[n], window), i);
      } else {
        StepExecutes(p, steps[n], window, i);
      }
    }
  }

  /** A step that executes finds every earlier number of the key below its own, unless numbers were forgotten. */
  lemma SecondExecution(p: Machine, s: Step, window: real, i: nat, j: nat)
    requires p.log <= After(p, s, window).log && Taken(p, i)
    requires |p.log| <= j < |After(p, s, window).log|
    requires After(p, s, window).log[j].Executed? && After(p, s, window).log[j].kid == p.log[i].kid
    ensures ForgotNumbers(After(p, s, window).log[i + 1..j]) || p.log[i].number < After(p, s, window).log[j].number
  {
    StepExecutes(p, s, window, j);
    assert After(p, s, window).log[i + 1..j] == p.log[i + 1..];
  }

  /**
   At most once, under crashes too.  In any run the numbers executed under one
   key strictly increase, so no pair of key and number is executed twice,
   between resets and restarts that could not read the state file.
   */
  lemma {:induction false} AtMostOnce(m: Machine, steps: seq<Step>, window: real, i: nat, j: nat)
    requires m.log == [] && i < j < |Run(m, steps, window).log|
    requires Run(m, steps, window).log[i].Executed? && Run(m, steps, window).log[j].Executed?
    requires Run(m, steps, window).log[i].kid == Run(m, steps, window).log[j].kid
    ensures ForgotNumbers(Run(m, steps, window).log[i + 1..j]) ||
            Run(m, steps, window).log[i].number < Run(m, steps, window).log[j].number
  {
    if steps != [] {
      var n := |steps| - 1;
      var p, s := Run(m, steps[..n], window), steps[n];
      LogGrows(p, StepActions(p, s, window));
      if j < |p.log| {
        AtMostOnce(m, steps[..n], window, i, j);
        assert Run(m, steps, window).log[i + 1..j] == p.log[i + 1..j];
      } else if i < |p.log| {
        RunTaken(m, steps[..n], window, i);
        SecondExecution(p, s, window, i, j);
      } else {
        StepExecutes(p, s, window, i);
        StepExecutes(p, s, window, j);
      }
    }
  }
}
