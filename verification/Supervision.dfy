/** Supervision of transport processes as interleaved atomic steps: what one goroutine does
    under the mutex, or between two lock acquisitions, is one step. */
module Supervision {
  import opened Common

  type Pid = nat
  type Ctx = nat

  /** A binary and its arguments. */
  datatype Command = Command(bin: string, args: seq<string>)

  /** Where a process and its watching goroutine are: `Unexpected` has exited and passed the
      context check, `Deleted` is between the watcher's delete and its restart, and
      `Abandoned` is a watcher that returned because the context was cancelled. */
  datatype Phase = Running | Exited | Unexpected | Deleted | Restarted | Abandoned

  datatype Process = Process(name: string, command: Command, ctx: Ctx, phase: Phase)

  /** A call of Stop that found an entry and has yet to delete the name. */
  datatype Stopping = Stopping(name: string, target: Pid, finished: bool)

  datatype State = State(tracked: map<string, Pid>, procs: seq<Process>, stops: seq<Stopping>, cancelled: set<Ctx>)

  const INITIAL := State(map[], [], [], {})

  datatype Event =
    | Start(name: string, command: Command, ctx: Ctx, spawned: bool)
    | Exit(pid: Pid)
    | Cancel(ctx: Ctx)
    | WatchCheck(pid: Pid)
    | WatchDelete(pid: Pid)
    | WatchRestart(pid: Pid, spawned: bool)
    | StopLook(name: string)
    | StopDelete(call: nat)

  // ---------------------------------------------------------------- one step

  /** A start of a tracked name does nothing; one whose spawn fails changes nothing. */
  function Launch(s: State, name: string, command: Command, ctx: Ctx, spawned: bool): State {
    if name in s.tracked || !spawned then s
    else s.(tracked := s.tracked[name := |s.procs|], procs := s.procs + [Process(name, command, ctx, Running)])
  }

  predicate InPhase(s: State, pid: Pid, phase: Phase) {
    pid < |s.procs| && s.procs[pid].phase == phase
  }

  function Move(s: State, pid: Pid, phase: Phase): State
    requires pid < |s.procs|
  {
    s.(procs := s.procs[pid := s.procs[pid].(phase := phase)])
  }

  /** A spawn under a cancelled context fails; every other spawn may fail. */
  predicate Enabled(s: State, e: Event) {
    match e
    case Start(_, _, ctx, spawned) => spawned ==> ctx !in s.cancelled
    case Exit(pid) => InPhase(s, pid, Running)
    case Cancel(_) => true
    case WatchCheck(pid) => InPhase(s, pid, Exited)
    case WatchDelete(pid) => InPhase(s, pid, Unexpected)
    case WatchRestart(pid, spawned) => InPhase(s, pid, Deleted) && (spawned ==> s.procs[pid].ctx !in s.cancelled)
    case StopLook(_) => true
    case StopDelete(call) => call < |s.stops| && !s.stops[call].finished
  }

  function Next(s: State, e: Event): State
    requires Enabled(s, e)
  {
    match e
    case Start(name, command, ctx, spawned) => Launch(s, name, command, ctx, spawned)
    case Exit(pid) => Move(s, pid, Exited)
    case Cancel(ctx) => s.(cancelled := s.cancelled + {ctx})
    case WatchCheck(pid) => Move(s, pid, if s.procs[pid].ctx in s.cancelled then Abandoned else Unexpected)
    case WatchDelete(pid) => Move(s, pid, Deleted).(tracked := s.tracked - {s.procs[pid].name})
    case WatchRestart(pid, spawned) =>
      var p := s.procs[pid];
      Launch(Move(s, pid, Restarted), p.name, p.command, p.ctx, spawned)
    case StopLook(name) =>
      if name in s.tracked then s.(stops := s.stops + [Stopping(name, s.tracked[name], false)]) else s
    case StopDelete(call) =>
      s.(tracked := s.tracked - {s.stops[call].name}, stops := s.stops[call := s.stops[call].(finished := true)])
  }

  /** What a requested step comes to: a spawn fails under a cancelled context. */
  function Granted(s: State, e: Event): Event {
    match e
    case Start(name, command, ctx, spawned) => Start(name, command, ctx, spawned && ctx !in s.cancelled)
    case WatchRestart(pid, spawned) => WatchRestart(pid, spawned && pid < |s.procs| && s.procs[pid].ctx !in s.cancelled)
    case _ => e
  }

  // ---------------------------------------------------------------- runs

  /** The state after the steps of `tr`, unless one of them was not possible. */
  function Play(s: State, tr: seq<Event>): Option<State> {
    if tr == [] then Some(s)
    else
      var u := Play(s, tr[..|tr| - 1]);
      if u.Some? && Enabled(u.value, tr[|tr| - 1]) then Some(Next(u.value, tr[|tr| - 1])) else None
  }

  /** The steps a schedule comes to from the start: each requested step that is possible when its
      turn comes, with its spawn as it turns out. */
  function StepsOf(schedule: seq<Event>): seq<Event> {
    if schedule == [] then []
    else
      var tr, e := StepsOf(schedule[..|schedule| - 1]), schedule[|schedule| - 1];
      var s := Play(INITIAL, tr);
      if s.Some? && Enabled(s.value, Granted(s.value, e)) then tr + [Granted(s.value, e)] else tr
  }

  predicate StopFree(tr: seq<Event>) {
    forall i | 0 <= i < |tr| :: !tr[i].StopDelete?
  }

  /** A watcher's delete of `n` that finds the name no longer tracked. */
  predicate IsMiss(s: State, e: Event, n: string) {
    e.WatchDelete? && e.pid < |s.procs| && s.procs[e.pid].name == n && n !in s.tracked
  }

  /** A Stop's delete of `n` that removes an entry. */
  predicate IsHit(s: State, e: Event, n: string) {
    IsStop(s, e, n) && n in s.tracked
  }

  predicate IsStop(s: State, e: Event, n: string) {
    e.StopDelete? && e.call < |s.stops| && s.stops[e.call].name == n
  }

  /** How many steps of `tr` satisfy `p` in the state they are taken in. */
  function Count(s: State, tr: seq<Event>, p: (State, Event) -> bool): nat {
    if tr == [] then 0
    else
      var init := tr[..|tr| - 1];
      var u := Play(s, init);
      Count(s, init, p) + if u.Some? && p(u.value, tr[|tr| - 1]) then 1 else 0
  }

  function Misses(tr: seq<Event>, n: string): nat {
    Count(INITIAL, tr, (s, e) => IsMiss(s, e, n))
  }

  function Hits(tr: seq<Event>, n: string): nat {
    Count(INITIAL, tr, (s, e) => IsHit(s, e, n))
  }

  function Stops(tr: seq<Event>, n: string): nat {
    Count(INITIAL, tr, (s, e) => IsStop(s, e, n))
  }

  // ---------------------------------------------------------------- counting processes

  /** The watcher has not deleted the name, and so nothing has replaced the process for it. */
  predicate Outstanding(p: Process, n: string) {
    p.name == n && !p.phase.Deleted? && !p.phase.Restarted?
  }

  function One(b: bool): nat {
    if b then 1 else 0
  }

  function CountOutstanding(ps: seq<Process>, n: string): nat {
    if ps == [] then 0 else CountOutstanding(ps[..|ps| - 1], n) + One(Outstanding(ps[|ps| - 1], n))
  }

  lemma {:induction false} CountAppend(ps: seq<Process>, p: Process, n: string)
    ensures CountOutstanding(ps + [p], n) == CountOutstanding(ps, n) + One(Outstanding(p, n))
  {
    assert (ps + [p])[..|ps|] == ps;
  }

  lemma {:induction false} CountUpdate(ps: seq<Process>, i: nat, p: Process, n: string)
    requires i < |ps|
    ensures CountOutstanding(ps[i := p], n) + One(Outstanding(ps[i], n))
            == CountOutstanding(ps, n) + One(Outstanding(p, n))
  {
    var k := |ps| - 1;
    if i == k {
      assert ps[i := p][..k] == ps[..k];
    } else {
      assert ps[i := p][..k] == ps[..k][i := p];
      CountUpdate(ps[..k], i, p, n);
    }
  }

  lemma {:induction false} CountPositive(ps: seq<Process>, i: nat, n: string)
    requires i < |ps| && Outstanding(ps[i], n)
    ensures CountOutstanding(ps, n) >= 1
  {
    if i < |ps| - 1 {
      CountPositive(ps[..|ps| - 1], i, n);
    }
  }

  // ---------------------------------------------------------------- conservation

  lemma {:induction false} StepConserves(s: State, e: Event, n: string)
    requires Enabled(s, e)
    ensures CountOutstanding(Next(s, e).procs, n) + One(n in s.tracked) + One(IsMiss(s, e, n))
         == CountOutstanding(s.procs, n) + One(n in Next(s, e).tracked) + One(IsHit(s, e, n))
  {
    match e
    case Start(name, command, ctx, spawned) =>
      CountAppend(s.procs, Process(name, command, ctx, Running), n);
    case Exit(pid) =>
      CountUpdate(s.procs, pid, s.procs[pid].(phase := Exited), n);
    case WatchCheck(pid) =>
      CountUpdate(s.procs, pid, Next(s, e).procs[pid], n);
    case WatchDelete(pid) =>
      CountUpdate(s.procs, pid, s.procs[pid].(phase := Deleted), n);
    case WatchRestart(pid, spawned) =>
      var p := s.procs[pid];
      CountUpdate(s.procs, pid, p.(phase := Restarted), n);
      CountAppend(Move(s, pid, Restarted).procs, Process(p.name, p.command, p.ctx, Running), n);
    case Cancel(_) =>
    case StopLook(_) =>
    case StopDelete(_) =>
  }

  /** In every interleaving, the processes of a name whose watcher has not deleted it are its
      entry in the table plus the Stop deletes that removed one, less the watcher deletes that
      found none. */
  lemma {:induction false} Conservation(tr: seq<Event>, n: string)
    requires Play(INITIAL, tr).Some?
    ensures var s := Play(INITIAL, tr).value;
            CountOutstanding(s.procs, n) + Misses(tr, n) == One(n in s.tracked) + Hits(tr, n)
  {
    if tr != [] {
      var init := tr[..|tr| - 1];
      Conservation(init, n);
      StepConserves(Play(INITIAL, init).value, tr[|tr| - 1], n);
    }
  }

  lemma {:induction false} HitsAreStops(tr: seq<Event>, n: string)
    ensures Hits(tr, n) <= Stops(tr, n)
  {
    if tr != [] {
      HitsAreStops(tr[..|tr| - 1], n);
    }
  }

  /** So each completed Stop can add at most one process beyond the tracked one. */
  lemma {:induction false} OutstandingBound(tr: seq<Event>, n: string)
    requires Play(INITIAL, tr).Some?
    ensures var s := Play(INITIAL, tr).value; CountOutstanding(s.procs, n) <= Stops(tr, n) + One(n in s.tracked)
  {
    Conservation(tr, n);
    HitsAreStops(tr, n);
  }

  // ---------------------------------------------------------------- runs without Stop

  /** Every outstanding process is the tracked one of its name, and every entry is one. */
  predicate Sole(s: State) {
    && (forall i | 0 <= i < |s.procs| :: Outstanding(s.procs[i], s.procs[i].name) ==>
        s.procs[i].name in s.tracked && s.tracked[s.procs[i].name] == i)
    && (forall n | n in s.tracked :: s.tracked[n] < |s.procs| && Outstanding(s.procs[s.tracked[n]], n))
  }

  lemma {:induction false} LaunchKeepsSole(s: State, name: string, command: Command, ctx: Ctx, spawned: bool)
    requires Sole(s)
    ensures Sole(Launch(s, name, command, ctx, spawned))
  {
  }

  /** A change of phase that leaves the process outstanding or not as it was. */
  lemma {:induction false} MoveKeepsSole(s: State, pid: Pid, phase: Phase)
    requires Sole(s) && pid < |s.procs|
    requires (phase.Deleted? || phase.Restarted?) == (s.procs[pid].phase.Deleted? || s.procs[pid].phase.Restarted?)
    ensures Sole(Move(s, pid, phase))
  {
  }

  lemma {:induction false} StepKeepsSole(s: State, e: Event)
    requires Enabled(s, e) && Sole(s) && !e.StopDelete?
    ensures Sole(Next(s, e))
  {
    match e
    case Start(name, command, ctx, spawned) => LaunchKeepsSole(s, name, command, ctx, spawned);
    case Exit(pid) => MoveKeepsSole(s, pid, Exited);
    case WatchCheck(pid) => MoveKeepsSole(s, pid, if s.procs[pid].ctx in s.cancelled then Abandoned else Unexpected);
    case WatchDelete(pid) => assert Outstanding(s.procs[pid], s.procs[pid].name);
    case WatchRestart(pid, spawned) =>
      MoveKeepsSole(s, pid, Restarted);
      LaunchKeepsSole(Move(s, pid, Restarted), s.procs[pid].name, s.procs[pid].command, s.procs[pid].ctx, spawned);
    case Cancel(_) =>
    case StopLook(_) =>
  }

  lemma {:induction false} RunKeepsSole(s: State, tr: seq<Event>)
    requires Play(s, tr).Some? && Sole(s) && StopFree(tr)
    ensures Sole(Play(s, tr).value)
  {
    if tr != [] {
      RunKeepsSole(s, tr[..|tr| - 1]);
      StepKeepsSole(Play(s, tr[..|tr| - 1]).value, tr[|tr| - 1]);
    }
  }

  /** Without Stop at most one process of a name is outstanding, it is the tracked one, and
      IsRunning answers exactly whether there is one. */
  lemma {:induction false} AtMostOneWithoutStop(tr: seq<Event>, n: string, i: nat, j: nat)
    requires Play(INITIAL, tr).Some? && StopFree(tr)
    ensures var s := Play(INITIAL, tr).value;
            && CountOutstanding(s.procs, n) == One(n in s.tracked)
            && (i < |s.procs| && j < |s.procs| && Outstanding(s.procs[i], n) && Outstanding(s.procs[j], n)
                ==> n in s.tracked && i == j == s.tracked[n])
  {
    var s := Play(INITIAL, tr).value;
    RunKeepsSole(INITIAL, tr);
    Conservation(tr, n);
    NoHits(tr, n);
    if n in s.tracked {
      CountPositive(s.procs, s.tracked[n], n);
    }
  }

  lemma {:induction false} NoHits(tr: seq<Event>, n: string)
    requires StopFree(tr)
    ensures Hits(tr, n) == 0
  {
    if tr != [] {
      NoHits(tr[..|tr| - 1], n);
    }
  }

  // ---------------------------------------------------------------- Stop breaks it

  /** A Stop whose process is replaced before the Stop deletes removes the replacement's entry. */
  function StaleStop(n: string, c: Command): seq<Event> {
    Replacement(n, c) + [StopDelete(0), Start(n, c, 0, true)]
  }

  function Replacement(n: string, c: Command): seq<Event> {
    [Start(n, c, 0, true), StopLook(n), Exit(0), WatchCheck(0), WatchDelete(0), WatchRestart(0, true)]
  }

  lemma {:induction false} PlayStep(tr: seq<Event>, e: Event, s: State, t: State)
    requires Play(INITIAL, tr) == Some(s) && Enabled(s, e) && Next(s, e) == t
    ensures Play(INITIAL, tr + [e]) == Some(t)
  {
    assert (tr + [e])[..|tr|] == tr;
  }

  lemma {:induction false} Exits(n: string, c: Command)
    ensures Play(INITIAL, Replacement(n, c)[..3])
         == Some(State(map[n := 0], [Process(n, c, 0, Exited)], [Stopping(n, 0, false)], {}))
  {
    var p := Process(n, c, 0, Running);
    var stop := Stopping(n, 0, false);
    var tr := Replacement(n, c);
    PlayStep([], tr[0], INITIAL, State(map[n := 0], [p], [], {}));
    assert [] + [tr[0]] == tr[..1];
    PlayStep(tr[..1], tr[1], State(map[n := 0], [p], [], {}), State(map[n := 0], [p], [stop], {}));
    assert tr[..1] + [tr[1]] == tr[..2];
    PlayStep(tr[..2], tr[2], State(map[n := 0], [p], [stop], {}),
             State(map[n := 0], [p.(phase := Exited)], [stop], {}));
    assert tr[..2] + [tr[2]] == tr[..3];
  }

  lemma {:induction false} Replaced(n: string, c: Command)
    ensures Play(INITIAL, Replacement(n, c))
         == Some(State(map[n := 1], [Process(n, c, 0, Restarted), Process(n, c, 0, Running)], [Stopping(n, 0, false)],
                       {}))
  {
    var p := Process(n, c, 0, Running);
    var stop := Stopping(n, 0, false);
    var tr := Replacement(n, c);
    Exits(n, c);
    PlayStep(tr[..3], tr[3], State(map[n := 0], [p.(phase := Exited)], [stop], {}),
             State(map[n := 0], [p.(phase := Unexpected)], [stop], {}));
    assert tr[..3] + [tr[3]] == tr[..4];
    PlayStep(tr[..4], tr[4], State(map[n := 0], [p.(phase := Unexpected)], [stop], {}),
             State(map[], [p.(phase := Deleted)], [stop], {}));
    assert tr[..4] + [tr[4]] == tr[..5];
    PlayStep(tr[..5], tr[5], State(map[], [p.(phase := Deleted)], [stop], {}),
             State(map[n := 1], [p.(phase := Restarted), p], [stop], {}));
    assert tr[..5] + [tr[5]] == tr;
  }

  /** Two processes of one name then run at once, and the table knows only the second. */
  lemma {:induction false} StopCanDuplicate(n: string, c: Command)
    ensures Play(INITIAL, StaleStop(n, c)).Some?
    ensures var s := Play(INITIAL, StaleStop(n, c)).value;
            InPhase(s, 1, Running) && InPhase(s, 2, Running) && s.procs[1].name == s.procs[2].name == n
              && s.tracked == map[n := 2]
  {
    var p := Process(n, c, 0, Running);
    var old2 := [p.(phase := Restarted), p];
    var tr := Replacement(n, c);
    Replaced(n, c);
    PlayStep(tr, StopDelete(0), State(map[n := 1], old2, [Stopping(n, 0, false)], {}),
             State(map[], old2, [Stopping(n, 0, true)], {}));
    PlayStep(tr + [StopDelete(0)], Start(n, c, 0, true), State(map[], old2, [Stopping(n, 0, true)], {}),
             State(map[n := 2], old2 + [p], [Stopping(n, 0, true)], {}));
    assert tr + [StopDelete(0)] + [Start(n, c, 0, true)] == StaleStop(n, c);
  }

  // ---------------------------------------------------------------- cancellation

  /** Once a context is cancelled, no process is started under it in any continuation. */
  lemma {:induction false} CancelledStaysStopped(s: State, tr: seq<Event>, ctx: Ctx, pid: Pid)
    requires Play(s, tr).Some? && ctx in s.cancelled
    ensures var t := Play(s, tr).value;
            && ctx in t.cancelled && |s.procs| <= |t.procs|
            && (|s.procs| <= pid < |t.procs| ==> t.procs[pid].ctx != ctx)
  {
    if tr != [] {
      CancelledStaysStopped(s, tr[..|tr| - 1], ctx, pid);
    }
  }

  /** A process that exited under a cancelled context keeps its name: without Stop the name
      stays tracked and no process is ever started for it again, whatever context asks. */
  lemma {:induction false} AbandonedKeepsItsName(s: State, tr: seq<Event>, pid: Pid, other: Pid)
    requires Play(s, tr).Some? && Sole(s) && StopFree(tr) && InPhase(s, pid, Abandoned)
    ensures var t := Play(s, tr).value;
            && |s.procs| <= |t.procs| && t.procs[pid] == s.procs[pid]
            && s.procs[pid].name in t.tracked && t.tracked[s.procs[pid].name] == pid
            && (|s.procs| <= other < |t.procs| ==> t.procs[other].name != s.procs[pid].name)
  {
    if tr == [] {
      assert Outstanding(s.procs[pid], s.procs[pid].name);
    } else {
      var init := tr[..|tr| - 1];
      AbandonedKeepsItsName(s, init, pid, other);
      RunKeepsSole(s, init);
      var u := Play(s, init).value;
      var e := tr[|tr| - 1];
      if e.WatchDelete? {
        assert Outstanding(u.procs[e.pid], u.procs[e.pid].name);
      }
    }
  }

  /** Process `pid` was started under a cancelled context and its watcher has not come past the check. */
  predicate Doomed(s: State, pid: Pid) {
    && pid < |s.procs| && s.procs[pid].ctx in s.cancelled
    && (s.procs[pid].phase.Running? || s.procs[pid].phase.Exited? || s.procs[pid].phase.Abandoned?)
  }

  /** The watcher of process `pid` forgets its name, or starts its command again. */
  predicate Replaces(e: Event, pid: Pid) {
    (e.WatchDelete? && e.pid == pid) || (e.WatchRestart? && e.pid == pid)
  }

  /** Once the context of a process that runs or has just exited is cancelled, its watcher never deletes
      its name nor restarts it; so without Stop the name stays tracked, to that very process. */
  lemma {:induction false} CancelledIsNeverReplaced(s: State, tr: seq<Event>, pid: Pid)
    requires Play(s, tr).Some? && Doomed(s, pid)
    ensures forall i | 0 <= i < |tr| :: !Replaces(tr[i], pid)
    ensures Doomed(Play(s, tr).value, pid) && Play(s, tr).value.procs[pid].name == s.procs[pid].name
    ensures Sole(s) && StopFree(tr) ==>
              var t, n := Play(s, tr).value, s.procs[pid].name; n in t.tracked && t.tracked[n] == pid
  {
    if tr != [] {
      var init := tr[..|tr| - 1];
      CancelledIsNeverReplaced(s, init, pid);
      DoomedStep(Play(s, init).value, tr[|tr| - 1], pid);
      hide Next, Enabled, Sole;
      assert forall i | 0 <= i < |init| :: tr[i] == init[i];
    }
    if Sole(s) && StopFree(tr) {
      RunKeepsSole(s, tr);
      DoomedIsTracked(Play(s, tr).value, pid);
    }
  }

  lemma {:induction false} DoomedStep(s: State, e: Event, pid: Pid)
    requires Enabled(s, e) && Doomed(s, pid)
    ensures !Replaces(e, pid) && Doomed(Next(s, e), pid) && Next(s, e).procs[pid].name == s.procs[pid].name
  {
  }

  lemma {:induction false} DoomedIsTracked(s: State, pid: Pid)
    requires Sole(s) && Doomed(s, pid)
    ensures s.procs[pid].name in s.tracked && s.tracked[s.procs[pid].name] == pid
  {
    assert Outstanding(s.procs[pid], s.procs[pid].name);
  }

  /** The other way round: under a live context a watcher does go on to forget the name. */
  lemma {:induction false} LiveIsReplaced(s: State, pid: Pid)
    requires InPhase(s, pid, Exited) && s.procs[pid].ctx !in s.cancelled
    ensures var tr := [WatchCheck(pid), WatchDelete(pid), WatchRestart(pid, true)];
            Play(s, tr).Some? && s.procs[pid].name in Play(s, tr).value.tracked
              && Play(s, tr).value.tracked[s.procs[pid].name] == |s.procs|
              && Play(s, tr).value.procs == s.procs[pid := s.procs[pid].(phase := Restarted)]
                                            + [s.procs[pid].(phase := Running)]
  {
    var tr := [WatchCheck(pid), WatchDelete(pid), WatchRestart(pid, true)];
    assert tr[..2][..1] == tr[..1] && tr[..1][..0] == [] && tr[..3] == tr;
    assert Play(s, []) == Some(s);
    assert Play(s, tr[..1]) == Some(Next(s, tr[0]));
    assert Play(s, tr[..2]) == Some(Next(Next(s, tr[0]), tr[1]));
  }

  function Cancelling(n: string, c: Command): seq<Event> {
    [Start(n, c, 0, true), Cancel(0), Exit(0), WatchCheck(0)]
  }

  /** Such a process is reached, and leaves a name that is taken for good: a later start of it under a
      live context does nothing. */
  lemma {:induction false} AbandonedIsReached(n: string, c: Command, again: Command, ctx: Ctx)
    requires ctx != 0
    ensures Play(INITIAL, Cancelling(n, c))
         == Some(State(map[n := 0], [Process(n, c, 0, Abandoned)], [], {0}))
    ensures Play(INITIAL, Cancelling(n, c) + [Start(n, again, ctx, true)]) == Play(INITIAL, Cancelling(n, c))
  {
    var p := Process(n, c, 0, Running);
    var tr := Cancelling(n, c);
    PlayStep([], tr[0], INITIAL, State(map[n := 0], [p], [], {}));
    assert [] + [tr[0]] == tr[..1];
    PlayStep(tr[..1], tr[1], State(map[n := 0], [p], [], {}), State(map[n := 0], [p], [], {0}));
    assert tr[..1] + [tr[1]] == tr[..2];
    PlayStep(tr[..2], tr[2], State(map[n := 0], [p], [], {0}), State(map[n := 0], [p.(phase := Exited)], [], {0}));
    assert tr[..2] + [tr[2]] == tr[..3];
    var end := State(map[n := 0], [p.(phase := Abandoned)], [], {0});
    PlayStep(tr[..3], tr[3], State(map[n := 0], [p.(phase := Exited)], [], {0}), end);
    assert tr[..3] + [tr[3]] == tr;
    PlayStep(tr, Start(n, again, ctx, true), end, end);
  }
}
