/** The agent's process manager. Every method below is one critical section of it, or one
    step of a goroutine between two; the operating system and the contexts are fields beside it. */
module ProcessManager {
  import opened Common
  import opened Supervision

  class ProcessManager {
    var processes: map<string, Pid>
    var spawned: seq<Process>
    var stopping: seq<Stopping>
    var cancelled: set<Ctx>

    ghost function Snapshot(): (s: State)
      reads this
    {
      State(processes, spawned, stopping, cancelled)
    }

    constructor ()
      ensures Snapshot() == INITIAL
    {
      processes, spawned, stopping, cancelled := map[], [], [], {};
    }

    /** Launches a process for an untracked name, if its context is alive and it spawns; `ok`
        is a nil error. */
    method Start(ctx: Ctx, name: string, command: Command, spawns: bool) returns (ok: bool)
      modifies this
      ensures Snapshot() == Launch(old(Snapshot()), name, command, ctx, spawns && ctx !in old(cancelled))
      ensures ok <==> name in old(processes) || (spawns && ctx !in old(cancelled))
    {
      if name in processes {
        return true;
      }
      if ctx in cancelled || !spawns {
        return false;
      }
      processes := processes[name := |spawned|];
      spawned := spawned + [Process(name, command, ctx, Running)];
      ok := true;
    }

    /** The watcher's Wait has returned; it goes on only if its context is still alive. */
    method WatchCheck(pid: Pid)
      requires InPhase(Snapshot(), pid, Exited)
      modifies this
      ensures Snapshot() == Next(old(Snapshot()), Event.WatchCheck(pid))
    {
      var p := spawned[pid];
      if p.ctx in cancelled {
        spawned := spawned[pid := p.(phase := Abandoned)];
        return;
      }
      spawned := spawned[pid := p.(phase := Unexpected)];
    }

    /** The watcher forgets the name, whichever process holds it by now. */
    method WatchDelete(pid: Pid)
      requires InPhase(Snapshot(), pid, Unexpected)
      modifies this
      ensures Snapshot() == Next(old(Snapshot()), Event.WatchDelete(pid))
    {
      processes := processes - {spawned[pid].name};
      spawned := spawned[pid := spawned[pid].(phase := Deleted)];
    }

    /** The watcher starts the same command again, under the same context. */
    method WatchRestart(pid: Pid, spawns: bool)
      requires InPhase(Snapshot(), pid, Deleted)
      modifies this
      ensures var s := old(Snapshot()); var e := Granted(s, Event.WatchRestart(pid, spawns));
              Enabled(s, e) && Snapshot() == Next(s, e)
    {
      var p := spawned[pid];
      spawned := spawned[pid := p.(phase := Restarted)];
      var ok := Start(p.ctx, p.name, p.command, spawns);
    }

    /** The first half of Stop: looks the name up and, if it is tracked, signals its process. */
    method StopLook(name: string) returns (found: bool)
      modifies this
      ensures Snapshot() == Next(old(Snapshot()), Event.StopLook(name))
      ensures found <==> name in processes
    {
      found := name in processes;
      if found {
        stopping := stopping + [Stopping(name, processes[name], false)];
      }
    }

    /** The second half: after the wait or the kill, forgets the name, whichever process holds it by now. */
    method StopDelete(call: nat)
      requires call < |stopping| && !stopping[call].finished
      modifies this
      ensures Snapshot() == Next(old(Snapshot()), Event.StopDelete(call))
    {
      processes := processes - {stopping[call].name};
      stopping := stopping[call := stopping[call].(finished := true)];
    }

    method IsRunning(name: string) returns (yes: bool)
      ensures yes <==> name in processes
    {
      yes := name in processes;
    }

    method Exit(pid: Pid)
      requires InPhase(Snapshot(), pid, Running)
      modifies this
      ensures Snapshot() == Next(old(Snapshot()), Event.Exit(pid))
    {
      spawned := spawned[pid := spawned[pid].(phase := Exited)];
    }

    method Cancel(ctx: Ctx)
      modifies this
      ensures Snapshot() == Next(old(Snapshot()), Event.Cancel(ctx))
    {
      cancelled := cancelled + {ctx};
    }

    /** Takes one requested step if it is possible now. */
    method Take(e: Event) returns (ghost taken: seq<Event>)
      modifies this
      ensures var s := old(Snapshot()); var g := Granted(s, e);
              taken == if Enabled(s, g) then [g] else []
      ensures Play(old(Snapshot()), taken) == Some(Snapshot())
    {
      ghost var s := Snapshot();
      ghost var g := Granted(s, e);
      taken := if Enabled(s, g) then [g] else [];
      assert taken != [] ==> taken[..|taken| - 1] == [] && Play(s, []) == Some(s);
      match e
      case Start(name, command, ctx, spawns) =>
        var ok := Start(ctx, name, command, spawns);
      case Exit(pid) =>
        if pid < |spawned| && spawned[pid].phase == Running {
          Exit(pid);
        }
      case Cancel(ctx) =>
        Cancel(ctx);
      case WatchCheck(pid) =>
        if pid < |spawned| && spawned[pid].phase == Exited {
          WatchCheck(pid);
        }
      case WatchDelete(pid) =>
        if pid < |spawned| && spawned[pid].phase == Unexpected {
          WatchDelete(pid);
        }
      case WatchRestart(pid, spawns) =>
        if pid < |spawned| && spawned[pid].phase == Deleted {
          WatchRestart(pid, spawns);
        }
      case StopLook(name) =>
        var found := StopLook(name);
      case StopDelete(call) =>
        if call < |stopping| && !stopping[call].finished {
          StopDelete(call);
        }
    }
  }

  lemma {:induction false} PlayConcat(s: State, tr: seq<Event>, more: seq<Event>)
    requires Play(s, tr).Some? && |more| <= 1
    ensures Play(s, tr + more) == Play(Play(s, tr).value, more)
  {
    if more == [] {
      assert tr + more == tr;
    } else {
      assert (tr + more)[..|tr|] == tr && more[..0] == [];
      assert Play(Play(s, tr).value, more[..0]) == Play(s, tr);
    }
  }

  lemma {:induction false} NothingScheduled()
    ensures StepsOf([]) == [] && Play(INITIAL, []) == Some(INITIAL) && Sole(INITIAL)
  {
  }

  lemma {:induction false} ScheduleGrows(schedule: seq<Event>, i: nat, tr: seq<Event>, s: State)
    requires i < |schedule| && tr == StepsOf(schedule[..i]) && Play(INITIAL, tr) == Some(s)
    ensures var g := Granted(s, schedule[i]); StepsOf(schedule[..i + 1]) == tr + if Enabled(s, g) then [g] else []
  {
    assert schedule[..i + 1][..i] == schedule[..i];
  }

  lemma {:induction false} ScheduledIsStopFree(schedule: seq<Event>)
    ensures StopFree(schedule) ==> StopFree(StepsOf(schedule))
  {
    if schedule != [] {
      ScheduledIsStopFree(schedule[..|schedule| - 1]);
    }
  }

  /** A manager driven by any schedule of its goroutines, its callers and its processes takes
      exactly the steps of it that are possible, and keeps the process count of every name in
      balance with its table. */
  method Interleave(schedule: seq<Event>) returns (pm: ProcessManager, ghost tr: seq<Event>)
    ensures fresh(pm) && tr == StepsOf(schedule) && Play(INITIAL, tr) == Some(pm.Snapshot())
    ensures forall n :: CountOutstanding(pm.spawned, n) + Misses(tr, n) == One(n in pm.processes) + Hits(tr, n)
    ensures StopFree(schedule) ==> StopFree(tr) && Sole(pm.Snapshot())
  {
    hide Enabled, Granted, Next, Play, StepsOf, Sole, StopFree;
    pm := new ProcessManager();
    tr := [];
    NothingScheduled();
    for i := 0 to |schedule|
      invariant tr == StepsOf(schedule[..i]) && Play(INITIAL, tr) == Some(pm.Snapshot())
      invariant fresh(pm)
    {
      ghost var s := pm.Snapshot();
      ghost var taken := pm.Take(schedule[i]);
      PlayConcat(INITIAL, tr, taken);
      ScheduleGrows(schedule, i, tr, s);
      tr := tr + taken;
    }
    assert schedule[..|schedule|] == schedule;
    ScheduledIsStopFree(schedule);
    forall n ensures CountOutstanding(pm.spawned, n) + Misses(tr, n) == One(n in pm.processes) + Hits(tr, n) {
      Conservation(tr, n);
    }
    if StopFree(schedule) {
      RunKeepsSole(INITIAL, tr);
    }
  }
}
