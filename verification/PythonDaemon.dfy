/**
 The Python daemon: its state store, and `handle_connection` as the ordered
 effects of one connection.  Nothing in a connection awaits between the cache
 lookup and the reply, so connections interleave whole; an exception or a crash
 cuts one short anywhere.
 */
module PythonDaemon {

  datatype Entry = Entry(timestamp: real, commandId: string, response: string)

  /** The parts of `STATE.data` that decide execution and replies. */
  datatype Data = Data(numbers: map<string, int>, cache: map<string, Entry>)

  const EMPTY := Data(map[], map[])

  function Last(d: Data, kid: string): int { if kid in d.numbers then d.numbers[kid] else 0 }

  /** The entries a purge at time `now` keeps. */
  function Purged(cache: map<string, Entry>, now: real, window: real): map<string, Entry> {
    map id | id in cache && now - cache[id].timestamp <= window :: cache[id]
  }

  datatype Event =
    | Executed(kid: string, number: int, id: string)
    | Inserted(id: string, timestamp: real, response: string)
    | PurgeRan(now: real)
    | FileSaved              // the whole state reached the file
    | Replied(id: string, response: string)
    | Reset
    | Restarted(readable: bool)
    | Aborted(id: string)

  datatype Action =
    | Claim(kid: string, number: int, saved: bool)
    | Perform(kid: string, number: int, id: string)
    | ResetState(saved: bool)
    | Insert(id: string, entry: Entry)
    | Purge(now: real, window: real)
    | Save(saved: bool)
    | Reply(id: string, response: string)
    | Abort(id: string)
    | Restart(readable: bool)

  datatype Machine = Machine(memory: Data, file: Data, log: seq<Event>)

  function Log(m: Machine, e: Event): Machine { m.(log := m.log + [e]) }

  function Write(m: Machine, memory: Data, saved: bool): Machine {
    m.(memory := memory, file := if saved then memory else m.file)
  }

  function Apply(m: Machine, a: Action): Machine {
    match a
    case Claim(kid, number, saved) =>
      if number <= Last(m.memory, kid) then m
      else Write(m, m.memory.(numbers := m.memory.numbers[kid := number]), saved)
    case Perform(kid, number, id) => Log(m, Executed(kid, number, id))
    case ResetState(saved) => Log(Write(m, EMPTY, saved), Reset)
    case Insert(id, entry) =>
      Log(m.(memory := m.memory.(cache := m.memory.cache[id := entry])), Inserted(id, entry.timestamp, entry.response))
    case Purge(now, window) =>
      Log(m.(memory := m.memory.(cache := Purged(m.memory.cache, now, window))), PurgeRan(now))
    case Save(saved) => if saved then Log(Write(m, m.memory, true), FileSaved) else m
    case Reply(id, response) => Log(m, Replied(id, response))
    case Abort(id) => Log(m, Aborted(id))
    case Restart(readable) => Log(m.(memory := if readable then m.file else EMPTY), Restarted(readable))
  }

  function ApplyAll(m: Machine, acts: seq<Action>): Machine
    decreases |acts|
  {
    if acts == [] then m else ApplyAll(Apply(m, acts[0]), acts[1..])
  }

  // One connection

  /** What a capability does to the state besides its own work. */
  datatype Effect = Nothing | Saves(saved: bool) | Resets(saved: bool)

  /**
   A validated request and what happens around it: `insertTime` and `purgeTime`
   are the two clock readings of `cache_response`, and the flags say which of
   the calls that can raise an exception do not.
   */
  datatype Connection = Connection(
    id: string,
    commandId: string,
    timely: bool,
    signed: bool,
    kid: string,
    number: int,
    claimSaved: bool,
    effect: Effect,
    response: string,      // of the capability, if it is reached
    timeError: string,
    signatureError: string,
    replayError: string,
    signs: bool,
    insertTime: real,
    purgeTime: real,
    cacheSaved: bool,
    audited: bool)

  /** `cache_response` and, if nothing raises, the reply. */
  function CachePlan(c: Connection, response: string, window: real, audited: bool): seq<Action> {
    if !c.signs then [Abort(c.id)]
    else
      [Insert(c.id, Entry(c.insertTime, c.commandId, response)), Purge(c.purgeTime, window), Save(c.cacheSaved)]
      + [if c.cacheSaved && audited then Reply(c.id, response) else Abort(c.id)]
  }

  function EffectPlan(e: Effect): seq<Action> {
    match e
    case Nothing => []
    case Saves(saved) => [Save(saved)]
    case Resets(saved) => [ResetState(saved)]
  }

  function ExecutePlan(c: Connection, window: real): seq<Action> {
    [Claim(c.kid, c.number, c.claimSaved)]
    + if !c.claimSaved then [Abort(c.id)]
      else [Perform(c.kid, c.number, c.id)] + (EffectPlan(c.effect) + CachePlan(c, c.response, window, c.audited))
  }

  /** The effects of a connection, in order. */
  function Plan(d: Data, c: Connection, window: real): seq<Action> {
    if c.id in d.cache then [Reply(c.id, d.cache[c.id].response)]
    else if !c.timely then CachePlan(c, c.timeError, window, true)
    else if !c.signed then CachePlan(c, c.signatureError, window, true)
    else if c.number <= Last(d, c.kid) then CachePlan(c, c.replayError, window, true)
    else ExecutePlan(c, window)
  }

  /** `StateStore`, with its file. */
  class StateStore {
    var data: Data
    var file: Data

    constructor (file: Data, readable: bool)
      ensures this.file == file && data == if readable then file else EMPTY
    {
      this.file := file;
      data := if readable then file else EMPTY;
    }

    /** A file that cannot be read is ignored. */
    method Load(readable: bool)
      modifies this`data
      ensures data == if readable then file else EMPTY
    {
      data := EMPTY;
      if readable { data := file; }
    }

    method Save(saved: bool)
      modifies this`file
      ensures file == if saved then data else old(file)
    {
      if saved { file := data; }
    }

    method PurgeIdempotency(now: real, window: real)
      modifies this`data
      ensures data == old(data).(cache := Purged(old(data).cache, now, window))
    {
      var keep: map<string, Entry> := map[];
      var left := data.cache.Keys;
      while left != {}
        invariant left <= data.cache.Keys
        invariant forall id :: id in keep <==> id in data.cache.Keys - left && now - data.cache[id].timestamp <= window
        invariant forall id :: id in keep ==> keep[id] == data.cache[id]
        decreases |left|
      {
        var id :| id in left;
        if now - data.cache[id].timestamp <= window { keep := keep[id := data.cache[id]]; }
        left := left - {id};
      }
      assert keep == Purged(data.cache, now, window);
      data := data.(cache := keep);
    }

    method CacheResponse(id: string, entry: Entry, now: real, window: real, saved: bool)
      modifies this
      ensures data == old(data).(cache := Purged(old(data).cache[id := entry], now, window))
      ensures file == if saved then data else old(file)
    {
      data := data.(cache := data.cache[id := entry]);
      PurgeIdempotency(now, window);
      Save(saved);
    }

    /** Takes the number only if it is above the last one; `ok` is false otherwise. */
    method UpdateSeq(kid: string, number: int, saved: bool) returns (ok: bool)
      modifies this
      ensures ok <==> number > old(Last(data, kid))
      ensures data == if ok then old(data).(numbers := old(data).numbers[kid := number]) else old(data)
      ensures file == if ok && saved then data else old(file)
    {
      var last := if kid in data.numbers then data.numbers[kid] else 0;
      if number <= last { return false; }
      data := data.(numbers := data.numbers[kid := number]);
      Save(saved);
      return true;
    }
  }

  lemma {:induction false} ApplyConcat(m: Machine, a: seq<Action>, b: seq<Action>)
    ensures ApplyAll(m, a + b) == ApplyAll(ApplyAll(m, a), b)
    decreases |a|
  {
    if a == [] {
      assert a + b == b;
    } else {
      assert (a + b)[0] == a[0] && (a + b)[1..] == a[1..] + b;
      ApplyConcat(Apply(m, a[0]), a[1..], b);
    }
  }

  /** The daemon: its store and the history an observer could record. */
  class Daemon {
    const store: StateStore
    const window: real
    var log: seq<Event>

    ghost function View(): Machine
      reads this, store
    {
      Machine(store.data, store.file, log)
    }

    constructor (store: StateStore, window: real)
      ensures this.store == store && this.window == window && log == []
    {
      this.store, this.window, log := store, window, [];
    }

    /** Signs, caches and sends one response; any call that raises ends it. */
    method CacheAndReply(c: Connection, response: string, audited: bool)
      modifies this, store
      ensures View() == ApplyAll(old(View()), CachePlan(c, response, window, audited))
    {
      ghost var m := View();
      if !c.signs {
        log := log + [Aborted(c.id)];
        return;
      }
      var entry := Entry(c.insertTime, c.commandId, response);
      store.CacheResponse(c.id, entry, c.purgeTime, window, c.cacheSaved);
      log := log + [Inserted(c.id, c.insertTime, response), PurgeRan(c.purgeTime)];
      if c.cacheSaved { log := log + [FileSaved]; }
      ghost var last := if c.cacheSaved && audited then Reply(c.id, response) else Abort(c.id);
      Cached(m, c.id, entry, c.purgeTime, window, c.cacheSaved, last);
      if c.cacheSaved && audited {
        log := log + [Replied(c.id, response)];
      } else {
        log := log + [Aborted(c.id)];
      }
    }

    method RunEffect(e: Effect)
      modifies this, store
      ensures View() == ApplyAll(old(View()), EffectPlan(e))
    {
      if e.Saves? {
        store.Save(e.saved);
        if e.saved { log := log + [FileSaved]; }
      } else if e.Resets? {
        store.data := EMPTY;
        store.Save(e.saved);
        log := log + [Reset];
      }
    }

    method Execute(c: Connection)
      requires c.number > Last(store.data, c.kid)
      modifies this, store
      ensures View() == ApplyAll(old(View()), ExecutePlan(c, window))
    {
      ghost var m := View();
      var ok := store.UpdateSeq(c.kid, c.number, c.claimSaved);
      if !c.claimSaved {
        log := log + [Aborted(c.id)];
        Two(m, Claim(c.kid, c.number, c.claimSaved), Abort(c.id));
        return;
      }
      log := log + [Executed(c.kid, c.number, c.id)];
      ghost var m2 := View();
      RunEffect(c.effect);
      CacheAndReply(c, c.response, c.audited);
      ThreeParts(m, Claim(c.kid, c.number, c.claimSaved), Perform(c.kid, c.number, c.id),
                 EffectPlan(c.effect), CachePlan(c, c.response, window, c.audited));
    }

    method RestartProcess(readable: bool)
      modifies this, store
      ensures View() == Apply(old(View()), Restart(readable))
    {
      store.Load(readable);
      log := log + [Restarted(readable)];
    }

    /** `handle_connection` from the cache lookup on: exactly the plan of the connection, in order. */
    method HandleConnection(c: Connection)
      modifies this, store
      ensures View() == ApplyAll(old(View()), Plan(old(store.data), c, window))
    {
      if c.id in store.data.cache {
        One(View(), Reply(c.id, store.data.cache[c.id].response));
        log := log + [Replied(c.id, store.data.cache[c.id].response)];
        return;
      }
      if !c.timely {
        CacheAndReply(c, c.timeError, true);
        return;
      }
      if !c.signed {
        CacheAndReply(c, c.signatureError, true);
        return;
      }
      if c.number <= Last(store.data, c.kid) {
        CacheAndReply(c, c.replayError, true);
        return;
      }
      Execute(c);
    }
  }

  lemma One(m: Machine, a: Action)
    ensures ApplyAll(m, [a]) == Apply(m, a)
  {
  }

  lemma Two(m: Machine, a: Action, b: Action)
    ensures ApplyAll(m, [a] + [b]) == Apply(Apply(m, a), b)
  {
    One(m, a);
    One(Apply(m, a), b);
    ApplyConcat(m, [a], [b]);
  }

  lemma ThreeParts(m: Machine, a: Action, b: Action, c: seq<Action>, d: seq<Action>)
    ensures ApplyAll(m, [a] + ([b] + (c + d))) == ApplyAll(ApplyAll(Apply(Apply(m, a), b), c), d)
  {
    One(m, a);
    One(Apply(m, a), b);
    ApplyConcat(m, [a], [b] + (c + d));
    ApplyConcat(Apply(m, a), [b], c + d);
    ApplyConcat(Apply(Apply(m, a), b), c, d);
  }

  lemma Cached(m: Machine, id: string, entry: Entry, now: real, window: real, saved: bool, last: Action)
    ensures ApplyAll(m, [Insert(id, entry), Purge(now, window), Save(saved)] + [last])
            == Apply(Apply(Apply(Apply(m, Insert(id, entry)), Purge(now, window)), Save(saved)), last)
  {
    var a, b, c := Insert(id, entry), Purge(now, window), Save(saved);
    ThreeParts(m, a, b, [c], [last]);
    One(Apply(Apply(m, a), b), c);
    One(Apply(Apply(Apply(m, a), b), c), last);
    assert [a, b, c] + [last] == [a] + ([b] + ([c] + [last]));
  }
}
