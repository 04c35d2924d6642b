/** Draw addresses until one verifies, remember the bad ones, then run the post actions. */
module Rotator {
  import opened Common
  import opened OciCloud
  import O = Oracle
  import opened Burned
  import opened Actions
  import opened Draws

  class Rotator {
    const provider: O.Oracle?
    const burned: BurnedStore?
    const post: seq<PostAction>
    const attempts: int
    const probe: bool
    const burnWindow: int

    constructor (provider: O.Oracle?, burned: BurnedStore?, post: seq<PostAction>, attempts: int, probe: bool,
                 burnWindow: int)
      ensures this.provider == provider && this.burned == burned && this.post == post
      ensures this.attempts == attempts && this.probe == probe && this.burnWindow == burnWindow
    {
      this.provider, this.burned, this.post := provider, burned, post;
      this.attempts, this.probe, this.burnWindow := attempts, probe, burnWindow;
    }

    function Cap(): (n: nat)
      ensures n >= 1
    {
      if attempts < 1 then 1 else attempts
    }

    ghost function Rules(): (r: Policy)
    {
      Policy(Cap(), probe, if burned == null then None else Some(burned.isV6), burnWindow)
    }

    ghost predicate Valid()
      reads this, provider, if provider == null then {} else {provider.cloud}, FootprintOf(post)
    {
      (provider != null ==> provider.Valid()) && AllReady(post)
    }

    ghost function Frame(): set<object> {
      (if provider == null then {} else {provider as object, provider.cloud})
      + (if burned == null then {} else {burned as object})
      + FootprintOf(post)
    }

    ghost function Known(): Entries
      reads burned
    {
      if burned == null then map[] else burned.entries
    }

    ghost function Here(): Journal
      requires provider != null
      reads provider, provider.cloud, burned
    {
      Journal(provider.cloud.st, provider.cloud.now, Known(), provider.cloud.trace, provider.calls)
    }

    /** The rotation failed for a cause the cloud, the clock or the context gave since `from`. */
    ghost predicate Excused(c: O.Rotation, from: int)
      requires provider != null
      reads provider.cloud
    {
      c.err.Some? && provider.Justified(c.instance, c.err.value, c.sent, from)
    }

    /** Whether the address answers on the target's port; time passes while it is dialled. */
    method ProbeTCP() returns (ok: bool)
      requires provider != null && provider.Valid()
      modifies provider.cloud
      ensures provider.Valid() && provider.cloud.Later()
      ensures provider.cloud.trace == old(provider.cloud.trace) && Evolves(old(provider.cloud.st), provider.cloud.st)
    {
      provider.cloud.Drift();
      ok := *;
    }

    /** One rotation of the target, as the provider interface shows it. */
    method RotateIP(target: Target) returns (oldIP: string, newIP: string, err: Option<Error>, ghost c: O.Rotation)
      requires provider != null && provider.Valid()
      modifies provider, provider.cloud
      ensures provider.Valid() && provider.cloud.Later()
      ensures Steps(provider.cloud.topo, target, old(Here()), Here(), c) && c.after == provider.cloud.st
      ensures c.oldIP == oldIP && c.newIP == newIP && err == Wrap(c.err) && (err.None? ==> newIP != "")
      ensures err.Some? ==> Excused(c, old(provider.cloud.now))
    {
      var failure;
      oldIP, newIP, failure, c := provider.RotateIP(target.instanceId);
      err := match failure case None => None case Some(e) => Some(RotationFailed(e));
    }

    /** Judges a fresh address: refused as burned unless it is the last, else probed if probing
        is on, and burned if the probe fails. */
    method Judge(newIP: string, last: bool, ghost c: O.Rotation)
      returns (refused: bool, verdict: Option<bool>, ghost d: Draw)
      requires provider != null && provider.Valid() && c.newIP == newIP
      modifies provider.cloud, burned
      ensures provider.Valid() && provider.cloud.Later()
      ensures provider.cloud.trace == old(provider.cloud.trace) && Evolves(old(provider.cloud.st), provider.cloud.st)
      ensures d.call == c && d.refused == refused && d.probe == verdict
      ensures Verdict(Rules(), d, last, old(Known()), Known(), old(provider.cloud.now), provider.cloud.now)
    {
      refused, verdict := false, None;
      d := Draw(c, Known(), provider.cloud.now, false, None);
      if burned != null && !last {
        var isBurned := burned.Burned(newIP, burnWindow, provider.cloud.now);
        if isBurned {
          refused, d := true, d.(refused := true);
          return;
        }
      }
      if !probe {
        return;
      }
      var ok := ProbeTCP();
      verdict, d := Some(ok), d.(probe := Some(ok));
      if !ok && burned != null {
        burned.Add(newIP, provider.cloud.now);
      }
    }

    /** One draw and its verdict. */
    method Attempt(target: Target, last: bool)
      returns (oldIP: string, newIP: string, refused: bool, verdict: Option<bool>, err: Option<Error>, ghost d: Draw)
      requires provider != null && provider.Valid()
      modifies provider, provider.cloud, burned
      ensures provider.Valid() && provider.cloud.Later()
      ensures Steps(provider.cloud.topo, target, old(Here()), Here(), d.call)
      ensures d.call.oldIP == oldIP && d.call.newIP == newIP && err == Wrap(d.call.err)
      ensures err.Some? ==> Known() == old(Known()) && Excused(d.call, old(provider.cloud.now))
      ensures err.None? ==>
                && newIP != "" && d.refused == refused && d.probe == verdict
                && Verdict(Rules(), d, last, old(Known()), Known(), old(provider.cloud.now), provider.cloud.now)
    {
      ghost var c;
      refused, verdict := false, None;
      oldIP, newIP, err, c := RotateIP(target);
      d := Draw(c, map[], 0, false, None);
      if err.Some? {
        return;
      }
      refused, verdict, d := Judge(newIP, last, c);
    }

    /** One turn of the loop: a draw, entered into the result. */
    method Turn(target: Target, attempt: nat, last: bool, result0: Outcome)
      returns (result: Outcome, keep: bool, err: Option<Error>, ghost d: Draw)
      requires provider != null && provider.Valid()
      modifies provider, provider.cloud, burned
      ensures provider.Valid() && provider.cloud.Later()
      ensures Steps(provider.cloud.topo, target, old(Here()), Here(), d.call)
      ensures result == Entered(result0, attempt, d) && err == Wrap(d.call.err)
      ensures err.Some? ==> Known() == old(Known()) && Excused(d.call, old(provider.cloud.now))
      ensures err.None? ==>
                && d.call.newIP != "" && keep == !Discarded(d)
                && Verdict(Rules(), d, last, old(Known()), Known(), old(provider.cloud.now), provider.cloud.now)
    {
      var oldIP, newIP, refused, verdict;
      oldIP, newIP, refused, verdict, err, d := Attempt(target, last);
      keep := !refused && verdict != Some(false);
      result := result0.(attempts := attempt);
      if oldIP != "" && result.oldIP == "" {
        result := result.(oldIP := oldIP);
      }
      if err.Some? {
        return;
      }
      result := result.(newIP := newIP);
      if !refused {
        result := result.(probe := verdict);
      }
      if !keep {
        result := result.(rejected := result.rejected + [newIP]);
      }
    }

    /** Draws until one is kept; `failed` is the rotation that ended it early, if one did. */
    method DrawAll(target: Target)
      returns (result: Outcome, err: Option<Error>, ghost draws: seq<Draw>, ghost failed: Option<O.Rotation>)
      requires provider != null && provider.Valid()
      modifies provider, provider.cloud, burned
      ensures provider.Valid() && provider.cloud.Later()
      ensures Drew(Rules(), provider.cloud.topo, target, old(Here()), Here(), draws, failed)
      ensures Reports(result, err, draws, failed, Cap()) && (err.Some? <==> failed.Some?)
      ensures failed.Some? ==> Excused(failed.value, old(provider.cloud.now))
    {
      hide Drew, Reports, Steps, Tallied, Entered;
      ghost var j := Here();
      DrewNothing(Rules(), provider.cloud.topo, target, j);
      draws, err, failed := [], None, None;
      result := Outcome("", "", 0, [], None, {});
      var attempt := 1;
      while attempt <= Cap()
        invariant 1 <= attempt <= Cap() && |draws| == attempt - 1 && err.None? && failed.None?
        invariant provider.Valid() && provider.cloud.Later()
        invariant Drew(Rules(), provider.cloud.topo, target, j, Here(), draws, None)
        invariant Tallied(result, draws) && AllDiscarded(draws)
        decreases Cap() + 1 - attempt
      {
        var last := attempt == Cap();
        var keep;
        ghost var k, result0 := Here(), result;
        ghost var d;
        result, keep, err, d := Turn(target, attempt, last, result);
        if err.Some? {
          failed := Some(d.call);
          FailureEnds(Rules(), provider.cloud.topo, target, j, k, Here(), draws, result0, result, d);
          return;
        }
        DrawGrows(Rules(), provider.cloud.topo, target, j, k, Here(), draws, d);
        DrawReports(Rules(), draws, result0, result, d);
        draws := draws + [d];
        if keep || last {
          return;
        }
        attempt := attempt + 1;
      }
    }

    /** Burns the address that was fled. */
    method BurnOld(oldIP: string)
      requires provider != null
      modifies burned
      ensures Known() == if burned == null then old(Known()) else Put(old(Known()), oldIP, provider.cloud.now)
    {
      if burned != null && oldIP != "" {
        burned.Add(oldIP, provider.cloud.now);
      }
    }

    /** The cloud carries `ip` on the target's private IP. */
    ghost predicate Bears(target: Target, ip: string)
      requires provider != null
      reads provider.cloud
    {
      Carries(provider.cloud.st, O.TargetIp(provider.cloud.topo, target.instanceId), ip)
    }

    /** Runs the post actions while the cloud goes about its business. */
    method RunPost(target: Target, newIP: string) returns (postErrors: set<string>)
      requires provider != null && provider.Valid() && AllReady(post)
      modifies provider.cloud, FootprintOf(post)
      ensures provider.Valid() && AllReady(post) && provider.cloud.Later()
      ensures provider.cloud.trace == old(provider.cloud.trace) && Evolves(old(provider.cloud.st), provider.cloud.st)
      ensures Known() == old(Known()) && provider.calls == old(provider.calls)
      ensures Progress(post, old(Records(post)), Records(post), |post|, postErrors, target, newIP)
    {
      hide Progress, Effective;
      Elsewhere(post, provider, burned);
      postErrors := RunAll(post, target, newIP);
      DriftBeside(provider.cloud, post);
    }

    /** What a rotation that does not fail ends with: the cloud bears the address, and so does
        every place whose action did not fail; from `was`, other targets were spared. */
    ghost predicate Settled(target: Target, result: Outcome, was: seq<Record>)
      requires provider != null && |was| == |post|
      reads provider.cloud, FootprintOf(post)
    {
      && result.newIP != "" && Bears(target, result.newIP)
      && Progress(post, was, Records(post), |post|, result.postErrors, target, result.newIP)
    }

    /** Burns the address that was fled, then runs the post actions. */
    method Finish(target: Target, drawn: Outcome) returns (result: Outcome)
      requires Valid() && provider != null
      modifies provider.cloud, burned, FootprintOf(post)
      ensures Valid() && provider.cloud.Later()
      ensures Progress(post, old(Records(post)), Records(post), |post|, result.postErrors, target, result.newIP)
      ensures result == drawn.(postErrors := result.postErrors)
      ensures Finishes(old(Here()), Here(), result.oldIP, burned != null)
    {
      hide Progress;
      Elsewhere(post, provider, burned);
      BurnOld(drawn.oldIP);
      var postErrors := RunPost(target, drawn.newIP);
      result := drawn.(postErrors := postErrors);
    }

    /** The end of a rotation that kept an address. */
    method Conclude(target: Target, drawn: Outcome, ghost j: Journal, ghost draws: seq<Draw>) returns (result: Outcome)
      requires Valid() && provider != null
      requires Drew(Rules(), provider.cloud.topo, target, j, Here(), draws, None)
      requires Reports(drawn, None, draws, None, Cap())
      modifies provider.cloud, burned, FootprintOf(post)
      ensures Valid() && provider.cloud.Later() && Settled(target, result, old(Records(post)))
      ensures Accounts(Rules(), provider.cloud.topo, target, j, Here(), result, None, draws, None)
    {
      hide Progress, Drew, Reports, Accounts, Finishes, Carries;
      ghost var k := Here();
      result := Finish(target, drawn);
      SuccessAccounts(Rules(), provider.cloud.topo, target, j, k, Here(), drawn, result, draws);
    }

    /** The draws, which leave alone what the post actions look after. */
    method DrawBeside(target: Target)
      returns (result: Outcome, err: Option<Error>, ghost draws: seq<Draw>, ghost failed: Option<O.Rotation>)
      requires Valid() && provider != null
      modifies provider, provider.cloud, burned
      ensures Valid() && provider.cloud.Later() && Records(post) == old(Records(post))
      ensures Drew(Rules(), provider.cloud.topo, target, old(Here()), Here(), draws, failed)
      ensures Reports(result, err, draws, failed, Cap()) && (err.Some? <==> failed.Some?)
      ensures failed.Some? ==> Excused(failed.value, old(provider.cloud.now))
    {
      hide Drew, Reports;
      Elsewhere(post, provider, burned);
      result, err, draws, failed := DrawAll(target);
    }

    method RotateWith(target: Target)
      returns (result: Outcome, err: Option<Error>, ghost draws: seq<Draw>, ghost failed: Option<O.Rotation>)
      requires Valid() && provider != null
      modifies provider, provider.cloud, burned, FootprintOf(post)
      ensures Valid() && provider.cloud.Later()
      ensures Accounts(Rules(), provider.cloud.topo, target, old(Here()), Here(), result, err, draws, failed)
      ensures failed.Some? ==> Excused(failed.value, old(provider.cloud.now))
      ensures if err.Some? then Records(post) == old(Records(post)) else Settled(target, result, old(Records(post)))
    {
      hide Drew, Reports, Accounts, Settled, Excused;
      ghost var j := Here();
      result, err, draws, failed := DrawBeside(target);
      if err.Some? {
        FailureAccounts(Rules(), provider.cloud.topo, target, j, Here(), result, err, draws, failed);
      } else {
        result := Conclude(target, result, j, draws);
      }
    }

    /** Draws addresses until one verifies, burns what was fled, then runs the post actions. */
    method Rotate(target: Target)
      returns (result: Outcome, err: Option<Error>, ghost draws: seq<Draw>, ghost failed: Option<O.Rotation>)
      requires Valid()
      modifies Frame()
      ensures Valid() && (provider == null <==> err == Some(NoProvider))
      ensures result.attempts <= if attempts < 1 then 1 else attempts
      ensures err.None? && result.probe == Some(false) ==> result.attempts >= attempts
      ensures provider != null ==>
                && provider.cloud.Later()
                && Accounts(Rules(), provider.cloud.topo, target, old(Here()), Here(), result, err, draws, failed)
                && (failed.Some? ==> Excused(failed.value, old(provider.cloud.now)))
      ensures provider != null ==>
                if err.Some? then Records(post) == old(Records(post)) else Settled(target, result, old(Records(post)))
    {
      hide Settled, Excused, Accounts, Progress, Bears;
      ghost var before := if provider == null then Journal(map[], 0, map[], [], []) else Here();
      if provider == null {
        draws := [];
        return Outcome("", "", 0, [], None, {}), Some(NoProvider), [], None;
      }
      result, err, draws, failed := RotateWith(target);
      AttemptsAreCapped(Rules(), provider.cloud.topo, target, before, Here(), result, err, draws, failed);
    }
  }

  /** The cloud's own doings leave what the actions look after alone. */
  method DriftBeside(cloud: Cloud, post: seq<PostAction>)
    requires cloud.Valid() && cloud !in FootprintOf(post) && AllReady(post)
    modifies cloud
    ensures cloud.Valid() && cloud.Later() && cloud.trace == old(cloud.trace) && Evolves(old(cloud.st), cloud.st)
    ensures AllReady(post) && Records(post) == old(Records(post))
  {
    cloud.Drift();
  }

  /** The provider, the cloud and the burned store are not among the places post actions look after. */
  lemma {:induction false} Elsewhere(post: seq<PostAction>, provider: O.Oracle, burned: BurnedStore?)
    ensures provider !in FootprintOf(post) && provider.cloud !in FootprintOf(post) && burned !in FootprintOf(post)
  {
    forall i | 0 <= i < |post|
      ensures provider !in Footprint(post[i]) && provider.cloud !in Footprint(post[i]) && burned !in Footprint(post[i])
    {
    }
  }
}
