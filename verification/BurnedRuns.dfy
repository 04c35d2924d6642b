/** Pruning is unobservable: dropping old entries on save changes no verdict over a window
    no longer than what is retained, whatever is added, saved and reloaded in between. */
module BurnedRuns {
  import opened Common
  import opened Burned

  /** What became of the write of a save: made, not begun, or torn. */
  datatype Fate = Written | Unwritten | Torn

  /** `Save` prunes what it retains too long and writes; `Load` is a new process reading the file,
      if it can be read. */
  datatype Op = Add(ip: string) | Save(retain: int, fate: Fate) | Load(readable: bool)

  datatype Timed = Timed(op: Op, time: int)

  /** `mem` is None after a load that failed: until one succeeds there is no store to ask. */
  datatype Store = Store(mem: Option<Entries>, disk: Content)

  function Step(s: Store, t: Timed): Store {
    match t.op
    case Add(ip) => if s.mem.Some? then s.(mem := Some(Put(s.mem.value, ip, t.time))) else s
    case Save(retain, fate) =>
      if s.mem.None? then s
      else
        var mem := Prune(s.mem.value, retain, t.time);
        Store(Some(mem), match fate case Written => Stored(mem) case Unwritten => s.disk case Torn => Damaged)
    case Load(readable) => s.(mem := if readable then Loaded(s.disk) else None)
  }

  /** The store's answer, if there is a store. */
  ghost predicate Answers(isV6: Parser, s: Store, ip: string, within: int, now: int) {
    s.mem.Some? && IsBurned(isV6, s.mem.value, ip, within, now)
  }

  function Run(s: Store, ops: seq<Timed>): Store
    decreases |ops|
  {
    if ops == [] then s else Run(Step(s, ops[0]), ops[1..])
  }

  /** The same operation with pruning switched off. */
  function Keep(t: Timed): Timed {
    match t.op
    case Save(_, fate) => t.(op := Save(0, fate))
    case _ => t
  }

  function KeepAll(ops: seq<Timed>): seq<Timed> {
    if ops == [] then [] else [Keep(ops[0])] + KeepAll(ops[1..])
  }

  predicate Chronological(from: int, ops: seq<Timed>, until: int)
    decreases |ops|
  {
    if ops == [] then from <= until else from <= ops[0].time && Chronological(ops[0].time, ops[1..], until)
  }

  /** Every save either keeps everything or retains at least `r`. */
  predicate RetainsAtLeast(ops: seq<Timed>, r: int) {
    forall i | 0 <= i < |ops| && ops[i].op.Save? :: ops[i].op.retain <= 0 || ops[i].op.retain >= r
  }

  /** `a` is `b` without some entries that are all older than the horizon. */
  ghost predicate Shadows(a: Entries, b: Entries, horizon: int) {
    && (forall k | k in a :: k in b && b[k] == a[k])
    && (forall k | k in b && k !in a :: b[k] < horizon)
  }

  /** The same of stores: they load and fail to load together. */
  ghost predicate ShadowsMem(a: Option<Entries>, b: Option<Entries>, horizon: int) {
    a.Some? == b.Some? && (a.Some? ==> Shadows(a.value, b.value, horizon))
  }

  lemma {:induction false} StepShadows(s: Store, u: Store, t: Timed, r: int, from: int)
    requires from <= t.time && (t.op.Save? ==> t.op.retain <= 0 || t.op.retain >= r)
    requires ShadowsMem(s.mem, u.mem, from - r) && ShadowsMem(Loaded(s.disk), Loaded(u.disk), from - r)
    ensures var s', u' := Step(s, t), Step(u, Keep(t));
            ShadowsMem(s'.mem, u'.mem, t.time - r) && ShadowsMem(Loaded(s'.disk), Loaded(u'.disk), t.time - r)
  {
  }

  lemma {:induction false} RunShadows(s: Store, u: Store, ops: seq<Timed>, r: int, from: int, until: int)
    requires Chronological(from, ops, until) && RetainsAtLeast(ops, r)
    requires ShadowsMem(s.mem, u.mem, from - r) && ShadowsMem(Loaded(s.disk), Loaded(u.disk), from - r)
    ensures ShadowsMem(Run(s, ops).mem, Run(u, KeepAll(ops)).mem, until - r)
    decreases |ops|
  {
    if ops != [] {
      var t := ops[0];
      assert KeepAll(ops)[0] == Keep(t) && KeepAll(ops)[1..] == KeepAll(ops[1..]);
      StepShadows(s, u, t, r, from);
      RunShadows(Step(s, t), Step(u, Keep(t)), ops[1..], r, t.time, until);
    }
  }

  lemma {:induction false} ShadowsSameVerdict(isV6: Parser, a: Entries, b: Entries, ip: string, within: int, now: int)
    requires Shadows(a, b, now - within)
    ensures IsBurned(isV6, a, ip, within, now) <==> IsBurned(isV6, b, ip, within, now)
  {
    if IsBurned(isV6, a, ip, within, now) {
      var raw :| raw in a && Condemns(a, raw, ip, now - within);
      assert Condemns(b, raw, ip, now - within);
    }
    if IsBurned(isV6, b, ip, within, now) {
      var raw :| raw in b && Condemns(b, raw, ip, now - within);
      assert Condemns(a, raw, ip, now - within);
    }
  }

  /** After any chronological sequence of operations, a verdict over a window no longer than
      every retention is the one a store that never prunes would give. */
  lemma {:induction false} PruningIsUnobservable(isV6: Parser, s: Store, ops: seq<Timed>, from: int, now: int,
                                                 ip: string, within: int)
    requires Chronological(from, ops, now) && RetainsAtLeast(ops, within)
    ensures Run(s, ops).mem.Some? == Run(s, KeepAll(ops)).mem.Some?
    ensures Answers(isV6, Run(s, ops), ip, within, now) <==> Answers(isV6, Run(s, KeepAll(ops)), ip, within, now)
  {
    RunShadows(s, s, ops, within, from, now);
    var a, b := Run(s, ops).mem, Run(s, KeepAll(ops)).mem;
    if a.Some? {
      ShadowsSameVerdict(isV6, a.value, b.value, ip, within, now);
    }
  }

  // ---------------------------------------------------------------- one process, no load

  function WithoutSaves(ops: seq<Timed>): seq<Timed> {
    if ops == [] then []
    else if ops[0].op.Save? then WithoutSaves(ops[1..])
    else [ops[0]] + WithoutSaves(ops[1..])
  }

  lemma {:induction false} UnprunedSavesOnlyWrite(s: Store, u: Store, ops: seq<Timed>)
    requires s.mem == u.mem && forall i | 0 <= i < |ops| :: !ops[i].op.Load?
    ensures Run(s, KeepAll(ops)).mem == Run(u, WithoutSaves(ops)).mem
    decreases |ops|
  {
    if ops != [] {
      var t := ops[0];
      assert KeepAll(ops)[0] == Keep(t) && KeepAll(ops)[1..] == KeepAll(ops[1..]);
      if t.op.Save? {
        UnprunedSavesOnlyWrite(Step(s, Keep(t)), u, ops[1..]);
      } else {
        assert WithoutSaves(ops)[1..] == WithoutSaves(ops[1..]);
        UnprunedSavesOnlyWrite(Step(s, t), Step(u, t), ops[1..]);
      }
    }
  }

  /** Within one process, saving at all is unobservable. */
  lemma {:induction false} SavingIsUnobservable(isV6: Parser, s: Store, ops: seq<Timed>, from: int, now: int,
                                                ip: string, within: int)
    requires Chronological(from, ops, now) && RetainsAtLeast(ops, within)
    requires forall i | 0 <= i < |ops| :: !ops[i].op.Load?
    ensures Answers(isV6, Run(s, ops), ip, within, now) <==> Answers(isV6, Run(s, WithoutSaves(ops)), ip, within, now)
  {
    PruningIsUnobservable(isV6, s, ops, from, now, ip, within);
    UnprunedSavesOnlyWrite(s, s, ops);
  }

  /** The retention matters: with a shorter one, a save can lose a verdict. */
  lemma {:induction false} ShortRetentionIsObservable(isV6: Parser)
    requires isV6("fd::7")
    ensures var s := Store(Some(map["fd::7" := 0]), Missing);
            var ops := [Timed(Save(10, Written), 20)];
            Answers(isV6, Run(s, KeepAll(ops)), "fd::7", 30, 20) && !Answers(isV6, Run(s, ops), "fd::7", 30, 20)
  {
    var s := Store(Some(map["fd::7" := 0]), Missing);
    var t := Timed(Save(10, Written), 20);
    OneStep(s, t);
    OneStep(s, Keep(t));
    assert KeepAll([t]) == [Keep(t)];
    assert Prune(s.mem.value, 10, 20) == map[];
    assert Condemns(s.mem.value, "fd::7", "fd::7", -10);
  }

  lemma {:induction false} OneStep(s: Store, t: Timed)
    ensures Run(s, [t]) == Step(s, t)
  {
    assert Run(s, [t]) == Run(Step(s, t), []);
  }

  lemma {:induction false} LostForGood(s: Store, ops: seq<Timed>)
    requires s.mem.None? && s.disk.Damaged?
    ensures Run(s, ops) == s
    decreases |ops|
  {
    if ops != [] {
      LostForGood(Step(s, ops[0]), ops[1..]);
    }
  }

  /** A torn write loses the store: once a new process has tried to load it, nothing brings a
      store back. */
  lemma {:induction false} TornWriteLosesTheStore(s: Store, retain: int, time: int, later: int, readable: bool,
                                                  ops: seq<Timed>)
    requires s.mem.Some?
    ensures Run(s, [Timed(Save(retain, Torn), time), Timed(Load(readable), later)] + ops).mem == None
  {
    var saved := Step(s, Timed(Save(retain, Torn), time));
    var all := [Timed(Save(retain, Torn), time), Timed(Load(readable), later)] + ops;
    assert all[1..][1..] == ops;
    LostForGood(Step(saved, Timed(Load(readable), later)), ops);
  }
}
