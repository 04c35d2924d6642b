/** What a rotation is made of: draws, how each is judged, what they add up to, and what the
    store of burned addresses gains. Nothing here touches the heap. */
module Draws {
  import opened Common
  import opened OciCloud
  import O = Oracle
  import opened RotationHistory
  import opened Burned
  import opened Actions

  /** How a rotator is set up: how many draws it may make, whether it probes, the address parser
      of its store if it has one, and how long the store keeps it away from an address. */
  datatype Policy = Policy(cap: nat, probe: bool, isV6: Option<Parser>, window: int)

  /** One draw: the provider's rotation, what the store knew when the draw was judged and when
      that was, whether it was refused as burned, and what a probe said if there was one. */
  datatype Draw = Draw(call: O.Rotation, known: Entries, at: int, refused: bool, probe: Option<bool>)

  predicate FailedProbe(d: Draw) {
    d.probe == Some(false)
  }

  predicate Discarded(d: Draw) {
    d.refused || FailedProbe(d)
  }

  /** The discarded addresses, in the order they were drawn. */
  function DiscardedIps(draws: seq<Draw>): seq<string> {
    if draws == [] then []
    else
      DiscardedIps(draws[..|draws| - 1])
      + if Discarded(draws[|draws| - 1]) then [draws[|draws| - 1].call.newIP] else []
  }

  /** The addresses that failed a probe among the first `n` draws. */
  function FailedIps(draws: seq<Draw>, n: nat): set<string>
    requires n <= |draws|
  {
    if n == 0 then {} else FailedIps(draws, n - 1) + if FailedProbe(draws[n - 1]) then {draws[n - 1].call.newIP} else {}
  }

  function CallsOf(draws: seq<Draw>): (made: seq<O.Rotation>)
    ensures |made| == |draws| && forall i | 0 <= i < |draws| :: made[i] == draws[i].call
  {
    if draws == [] then [] else CallsOf(draws[..|draws| - 1]) + [draws[|draws| - 1].call]
  }

  /** The provider's rotations behind the draws, and the one that failed, if one did. */
  function MadeBy(draws: seq<Draw>, failed: Option<O.Rotation>): seq<O.Rotation> {
    CallsOf(draws) + if failed.Some? then [failed.value] else []
  }

  /** `t` is `s` with exactly `added` burned afresh between two times. */
  ghost predicate Grown(s: Entries, t: Entries, added: set<string>, from: int, until: int) {
    && t.Keys == s.Keys + added
    && (forall k | k in t :: if k in added then from <= t[k] <= until else t[k] == s[k])
  }

  lemma {:induction false} GrownAgain(s: Entries, t: Entries, added: set<string>, from: int, until: int, ip: string,
                                      now: int)
    requires Grown(s, t, added, from, until) && from <= until <= now && ip != ""
    ensures Grown(s, Put(t, ip, now), added + {ip}, from, now)
  {
  }

  datatype Error = NoProvider | RotationFailed(cause: O.Error)

  function Wrap(e: Option<O.Error>): Option<Error> {
    match e case None => None case Some(cause) => Some(RotationFailed(cause))
  }

  datatype Outcome = Outcome(oldIP: string, newIP: string, attempts: nat, rejected: seq<string>, probe: Option<bool>,
                             postErrors: set<string>)

  /** How draw `i` was judged: refused as burned unless it was the last allowed, probed if
      probing is on and it was not refused, and followed by another only if it was discarded.
      What the store knew was what the earlier draws had left there. */
  ghost predicate JudgedAt(r: Policy, draws: seq<Draw>, i: nat, s: Entries, from: int)
    requires i < |draws|
  {
    var d := draws[i];
    && d.call.err.None? && d.call.newIP != ""
    && d.refused == (r.isV6.Some? && i + 1 < r.cap && IsBurned(r.isV6.value, d.known, d.call.newIP, r.window, d.at))
    && (d.probe.Some? <==> r.probe && !d.refused)
    && (r.isV6.Some? ==> Grown(s, d.known, FailedIps(draws, i), from, d.at))
    && (i + 1 < |draws| ==> Discarded(d))
  }

  ghost predicate Judged(r: Policy, draws: seq<Draw>, s: Entries, from: int) {
    forall i | 0 <= i < |draws| :: JudgedAt(r, draws, i, s, from)
  }

  /** Every draw was judged by `now`. */
  ghost predicate Timely(draws: seq<Draw>, now: int) {
    forall i | 0 <= i < |draws| :: draws[i].at <= now
  }

  /** What a rotation starts from: the cloud and its clock, what the store knows, what was sent
      and which rotations the provider was asked for. */
  datatype Journal = Journal(start: State, from: int, known: Entries, trace: seq<Event>, calls: seq<O.Rotation>)

  /** From `j` to `k` the provider was asked for one rotation of the target, `c`, and the cloud was
      sent what that sent. */
  ghost predicate Steps(topo: Topology, target: Target, j: Journal, k: Journal, c: O.Rotation) {
    && k.calls == j.calls + [c] && k.trace == j.trace + c.sent && j.from <= k.from
    && Link(topo, target.instanceId, c) && c.before == j.start && Evolves(c.after, k.start)
  }

  /** From `j` to `k` the provider was asked for exactly the rotations `made`, the cloud was sent
      exactly what they sent, and they lead from the cloud of `j` to that of `k`. */
  ghost predicate Counted(topo: Topology, target: Target, j: Journal, k: Journal, made: seq<O.Rotation>) {
    && k.calls == j.calls + made && k.trace == j.trace + SentBy(made) && j.from <= k.from
    && Chain(topo, target.instanceId, j.start, made, k.start)
  }

  /** From `j` to `k` the rotator made these draws, judged as they must be, and the one rotation
      that failed, if one did; the store gained the addresses that failed a probe. */
  ghost predicate Drew(r: Policy, topo: Topology, target: Target, j: Journal, k: Journal, draws: seq<Draw>,
                       failed: Option<O.Rotation>) {
    && Counted(topo, target, j, k, MadeBy(draws, failed))
    && Judged(r, draws, j.known, j.from) && Timely(draws, k.from)
    && (r.isV6.Some? ==> Grown(j.known, k.known, FailedIps(draws, |draws|), j.from, k.from))
  }

  /** What a rotation is, however it ended: the draws it made and how they were judged, the
      provider's rotations behind them, and what the store remembers: the addresses that failed
      a probe and, on success, the one that was fled. */
  ghost predicate Accounts(r: Policy, topo: Topology, target: Target, j: Journal, k: Journal,
                           result: Outcome, err: Option<Error>, draws: seq<Draw>, failed: Option<O.Rotation>) {
    && Counted(topo, target, j, k, MadeBy(draws, failed))
    && Judged(r, draws, j.known, j.from) && Timely(draws, k.from)
    && (r.isV6.Some? ==> Grown(j.known, k.known, FailedIps(draws, |draws|) + Fled(result, err), j.from, k.from))
    && Reports(result, err, draws, failed, r.cap)
  }

  /** From `j` to `k` nothing was asked of the cloud, and the fled address was burned. */
  ghost predicate Finishes(j: Journal, k: Journal, oldIP: string, burns: bool) {
    && k.calls == j.calls && k.trace == j.trace && j.from <= k.from && Evolves(j.start, k.start)
    && k.known == if burns then Put(j.known, oldIP, j.from) else j.known
  }

  /** The address a rotation fled, if it succeeded and could name it. */
  function Fled(result: Outcome, err: Option<Error>): set<string> {
    if err.Some? || result.oldIP == "" then {} else {result.oldIP}
  }

  /** How a fresh address is judged, and what is burned for it. */
  ghost predicate Verdict(r: Policy, d: Draw, last: bool, was: Entries, now: Entries, from: int, until: int) {
    && from <= d.at <= until && d.known == was
    && d.refused == (r.isV6.Some? && !last && IsBurned(r.isV6.value, d.known, d.call.newIP, r.window, d.at))
    && (d.probe.Some? <==> r.probe && !d.refused)
    && now == if FailedProbe(d) && r.isV6.Some? then Put(was, d.call.newIP, until) else was
  }

  /** What a rotation reports of its draws. Either one was kept at the end, at the latest the last
      one allowed; or the provider failed, after draws that were all discarded. */
  ghost predicate Reports(result: Outcome, err: Option<Error>, draws: seq<Draw>, failed: Option<O.Rotation>, cap: nat) {
    && result.attempts == |MadeBy(draws, failed)| <= cap
    && result.oldIP == FirstOld(MadeBy(draws, failed)) && result.rejected == DiscardedIps(draws)
    && (if failed.Some? then AllDiscarded(draws) && failed.value.err.Some? && err == Wrap(failed.value.err)
        else err.None? && Concluded(result, draws, cap))
  }

  /** The draws ended in an address being kept. */
  ghost predicate Concluded(result: Outcome, draws: seq<Draw>, cap: nat) {
    && draws != [] && result.attempts == |draws| <= cap
    && (|draws| < cap ==> !Discarded(draws[|draws| - 1]))
    && result.newIP == draws[|draws| - 1].call.newIP && result.probe == draws[|draws| - 1].probe
  }

  /** No more attempts than allowed, and no fewer if an address that failed its probe was kept. */
  lemma {:induction false} AttemptsAreCapped(r: Policy, topo: Topology, target: Target, j: Journal, k: Journal,
                                             result: Outcome, err: Option<Error>, draws: seq<Draw>,
                                             failed: Option<O.Rotation>)
    requires Accounts(r, topo, target, j, k, result, err, draws, failed)
    ensures result.attempts <= r.cap && (err.None? && result.probe == Some(false) ==> result.attempts == r.cap)
    ensures err != Some(NoProvider)
  {
    hide Counted, Judged, Grown;
  }

  /** The running totals of a rotation. */
  ghost predicate Tallied(result: Outcome, draws: seq<Draw>) {
    result.oldIP == FirstOld(CallsOf(draws)) && result.rejected == DiscardedIps(draws) && result.postErrors == {}
  }

  lemma {:induction false} CallsAppend(draws: seq<Draw>, d: Draw)
    ensures CallsOf(draws + [d]) == CallsOf(draws) + [d.call]
  {
    assert (draws + [d])[..|draws|] == draws;
  }

  /** The result after one more draw. */
  function Entered(r: Outcome, attempt: nat, d: Draw): Outcome {
    var r' := r.(attempts := attempt, oldIP := if r.oldIP == "" then d.call.oldIP else r.oldIP);
    if d.call.err.Some? then r'
    else r'.(newIP := d.call.newIP, probe := if d.refused then r.probe else d.probe,
             rejected := if Discarded(d) then r.rejected + [d.call.newIP] else r.rejected)
  }

  lemma {:induction false} CountedGrows(topo: Topology, target: Target, j: Journal, k: Journal, l: Journal,
                                        made: seq<O.Rotation>, c: O.Rotation)
    requires Counted(topo, target, j, k, made) && Steps(topo, target, k, l, c)
    ensures Counted(topo, target, j, l, made + [c])
  {
    hide O.Performed;
    ChainGrows(topo, target.instanceId, j.start, made, c, l.start);
  }

  lemma {:induction false} TalliedGrows(result0: Outcome, result: Outcome, attempt: nat, draws: seq<Draw>, d: Draw)
    requires Tallied(result0, draws) && result == Entered(result0, attempt, d) && d.call.err.None?
    ensures Tallied(result, draws + [d]) && CallsOf(draws + [d]) == CallsOf(draws) + [d.call]
  {
    CallsAppend(draws, d);
    assert (draws + [d])[..|draws|] == draws && (CallsOf(draws) + [d.call])[..|draws|] == CallsOf(draws);
  }

  lemma {:induction false} DrewNothing(r: Policy, topo: Topology, target: Target, j: Journal)
    ensures Drew(r, topo, target, j, j, [], None) && Tallied(Outcome("", "", 0, [], None, {}), [])
  {
  }

  /** A draw, kept or not, extends what was drawn. */
  lemma {:induction false} DrawGrows(r: Policy, topo: Topology, target: Target, j: Journal, k: Journal, l: Journal,
                                     draws: seq<Draw>, d: Draw)
    requires Drew(r, topo, target, j, k, draws, None) && AllDiscarded(draws) && |draws| < r.cap
    requires Steps(topo, target, k, l, d.call) && d.call.err.None? && d.call.newIP != ""
    requires Verdict(r, d, |draws| + 1 == r.cap, k.known, l.known, k.from, l.from)
    ensures Drew(r, topo, target, j, l, draws + [d], None)
  {
    CallsAppend(draws, d);
    assert MadeBy(draws, None) == CallsOf(draws) && MadeBy(draws + [d], None) == CallsOf(draws) + [d.call];
    CountedGrows(topo, target, j, k, l, CallsOf(draws), d.call);
    VerdictAppends(r, draws, d, j.known, j.from, k.known, l.known, k.from, l.from);
  }

  /** Kept, or the last one allowed, a draw concludes the rotation. */
  lemma {:induction false} DrawReports(r: Policy, draws: seq<Draw>, result0: Outcome, result: Outcome, d: Draw)
    requires Tallied(result0, draws) && AllDiscarded(draws) && |draws| < r.cap && d.call.err.None?
    requires result == Entered(result0, |draws| + 1, d) && (|draws| + 1 == r.cap ==> !d.refused)
    ensures Tallied(result, draws + [d]) && (Discarded(d) ==> AllDiscarded(draws + [d]))
    ensures !Discarded(d) || |draws| + 1 == r.cap ==> Reports(result, None, draws + [d], None, r.cap)
  {
    TalliedGrows(result0, result, |draws| + 1, draws, d);
    assert MadeBy(draws + [d], None) == CallsOf(draws + [d]);
    hide FirstOld, CallsOf, DiscardedIps, MadeBy;
    assert (draws + [d])[|draws|] == d;
    assert forall i | 0 <= i < |draws| :: (draws + [d])[i] == draws[i];
  }

  lemma {:induction false} FailureEnds(r: Policy, topo: Topology, target: Target, j: Journal, k: Journal, l: Journal,
                                       draws: seq<Draw>, result0: Outcome, result: Outcome, d: Draw)
    requires Drew(r, topo, target, j, k, draws, None) && Tallied(result0, draws) && AllDiscarded(draws)
    requires |draws| < r.cap
    requires Steps(topo, target, k, l, d.call) && result == Entered(result0, |draws| + 1, d) && d.call.err.Some?
    requires l.known == k.known
    ensures Drew(r, topo, target, j, l, draws, Some(d.call))
    ensures Reports(result, Wrap(d.call.err), draws, Some(d.call), r.cap)
  {
    assert MadeBy(draws, None) == CallsOf(draws);
    CountedGrows(topo, target, j, k, l, CallsOf(draws), d.call);
    assert (CallsOf(draws) + [d.call])[..|draws|] == CallsOf(draws);
  }

  lemma {:induction false} FailureAccounts(r: Policy, topo: Topology, target: Target, j: Journal, k: Journal,
                                           result: Outcome, err: Option<Error>, draws: seq<Draw>,
                                           failed: Option<O.Rotation>)
    requires Drew(r, topo, target, j, k, draws, failed) && Reports(result, err, draws, failed, r.cap) && err.Some?
    ensures Accounts(r, topo, target, j, k, result, err, draws, failed)
  {
    assert FailedIps(draws, |draws|) + {} == FailedIps(draws, |draws|);
  }

  lemma {:induction false} CountedDrifts(topo: Topology, target: Target, j: Journal, k: Journal, l: Journal,
                                         made: seq<O.Rotation>)
    requires Counted(topo, target, j, k, made)
    requires l.calls == k.calls && l.trace == k.trace && k.from <= l.from && Evolves(k.start, l.start)
    ensures Counted(topo, target, j, l, made)
  {
    ChainEvolves(topo, target.instanceId, j.start, made, k.start, l.start);
  }

  lemma {:induction false} FledIsBurned(s: Entries, t: Entries, failed: set<string>, from: int, at: int, until: int,
                                        oldIP: string)
    requires Grown(s, t, failed, from, at) && from <= at <= until
    ensures Grown(s, Put(t, oldIP, at), failed + if oldIP == "" then {} else {oldIP}, from, until)
  {
    assert failed + {} == failed;
  }

  /** Burning what was fled, and the post actions with the cloud going about its business. */
  lemma {:induction false} SuccessAccounts(r: Policy, topo: Topology, target: Target, j: Journal, k: Journal,
                                           l: Journal, drawn: Outcome, result: Outcome, draws: seq<Draw>)
    requires Drew(r, topo, target, j, k, draws, None) && Reports(drawn, None, draws, None, r.cap)
    requires result == drawn.(postErrors := result.postErrors) && Finishes(k, l, result.oldIP, r.isV6.Some?)
    ensures Accounts(r, topo, target, j, l, result, None, draws, None)
    ensures result.newIP != "" && Carries(l.start, O.TargetIp(topo, target.instanceId), result.newIP)
  {
    CountedDrifts(topo, target, j, k, l, MadeBy(draws, None));
    assert JudgedAt(r, draws, |draws| - 1, j.known, j.from);
    KeptIsCarried(topo, target.instanceId, j.start, draws, l.start);
    if r.isV6.Some? {
      FledIsBurned(j.known, k.known, FailedIps(draws, |draws|), j.from, k.from, l.from, result.oldIP);
    }
  }

  ghost predicate AllDiscarded(draws: seq<Draw>) {
    forall i | 0 <= i < |draws| :: Discarded(draws[i])
  }

  lemma {:induction false} FailedIpsPrefix(draws: seq<Draw>, d: Draw, n: nat)
    requires n <= |draws|
    ensures FailedIps(draws + [d], n) == FailedIps(draws, n)
  {
    if n > 0 {
      FailedIpsPrefix(draws, d, n - 1);
    }
  }

  /** A draw judged on what the earlier ones left in the store extends a judged sequence. */
  lemma {:induction false} DrawAppends(r: Policy, draws: seq<Draw>, d: Draw, s: Entries, from: int)
    requires Judged(r, draws, s, from) && AllDiscarded(draws) && |draws| < r.cap
    requires d.call.err.None? && d.call.newIP != "" && (d.probe.Some? <==> r.probe && !d.refused)
    requires d.refused ==
      (r.isV6.Some? && |draws| + 1 < r.cap && IsBurned(r.isV6.value, d.known, d.call.newIP, r.window, d.at))
    requires r.isV6.Some? ==> Grown(s, d.known, FailedIps(draws, |draws|), from, d.at)
    ensures Judged(r, draws + [d], s, from)
    ensures FailedIps(draws + [d], |draws| + 1) == FailedIps(draws, |draws|)
            + if FailedProbe(d) then {d.call.newIP} else {}
  {
    FailedIpsPrefix(draws, d, |draws|);
    forall i | 0 <= i < |draws|
      ensures JudgedAt(r, draws + [d], i, s, from)
    {
      FailedIpsPrefix(draws, d, i);
      assert JudgedAt(r, draws, i, s, from) && Discarded(draws[i]);
    }
    assert JudgedAt(r, draws + [d], |draws|, s, from);
  }

  /** The same for a draw just judged, with what it left in the store. */
  lemma {:induction false} VerdictAppends(r: Policy, draws: seq<Draw>, d: Draw, s: Entries, from: int,
                                          was: Entries, now: Entries, before: int, until: int)
    requires Judged(r, draws, s, from) && AllDiscarded(draws) && |draws| < r.cap
    requires d.call.err.None? && d.call.newIP != "" && from <= before
    requires Verdict(r, d, |draws| + 1 == r.cap, was, now, before, until)
    requires r.isV6.Some? ==> Grown(s, was, FailedIps(draws, |draws|), from, before)
    ensures Judged(r, draws + [d], s, from)
    ensures r.isV6.Some? ==> Grown(s, now, FailedIps(draws + [d], |draws| + 1), from, until)
  {
    DrawAppends(r, draws, d, s, from);
    if r.isV6.Some? && FailedProbe(d) {
      GrownAgain(s, was, FailedIps(draws, |draws|), from, before, d.call.newIP, until);
    }
  }

  /** The private IP carries an attached address with this text. */
  ghost predicate Carries(s: State, p: Ocid, ip: string) {
    exists x :: x in s && Bound(s, p, x) && O.HasAddress(s, x, ip)
  }

  /** The last address drawn is on the target. */
  lemma {:induction false} KeptIsCarried(topo: Topology, instance: Ocid, s: State, draws: seq<Draw>, t: State)
    requires Chain(topo, instance, s, MadeBy(draws, None), t) && draws != [] && draws[|draws| - 1].call.err.None?
    ensures Carries(t, O.TargetIp(topo, instance), draws[|draws| - 1].call.newIP)
  {
    assert MadeBy(draws, None) == CallsOf(draws);
    ChainLinks(topo, instance, s, CallsOf(draws), t, |draws| - 1);
    var c := draws[|draws| - 1].call;
    AttachedStays(c.after, t, O.TargetIp(topo, instance), c.drawn);
  }
}
