/** What a finished rotation says about its draws, what it leaves in the cloud, and the places
    that publish the address. */
module RotationOutcome {
  import opened Common
  import opened Text
  import opened OciCloud
  import O = Oracle
  import opened RotationHistory
  import opened Burned
  import opened Actions
  import opened Draws
  import R = Rotator
  import SC = SshConfig

  // ---------------------------------------------------------------- one rotation

  lemma {:induction false} DiscardedCount(draws: seq<Draw>)
    requires AllDiscarded(draws)
    ensures |DiscardedIps(draws)| == |draws|
    ensures forall i | 0 <= i < |draws| :: DiscardedIps(draws)[i] == draws[i].call.newIP
  {
    if draws != [] {
      DiscardedCount(draws[..|draws| - 1]);
    }
  }

  /** A rotation without error made as many draws as it reports, at most its cap, and kept the
      last; it rejected all the others, and the last too exactly when that was the capped one
      and failed its probe. */
  lemma {:induction false} OutcomeOfDraws(r: Policy, draws: seq<Draw>, result: Outcome, s: Entries, from: int)
    requires Judged(r, draws, s, from) && Concluded(result, draws, r.cap) && result.rejected == DiscardedIps(draws)
    ensures 1 <= result.attempts == |draws| <= r.cap && result.newIP == draws[|draws| - 1].call.newIP
    ensures |result.rejected| == result.attempts - 1 + if result.probe == Some(false) then 1 else 0
    ensures forall i | 0 <= i < result.attempts - 1 :: result.rejected[i] == draws[i].call.newIP
    ensures result.probe == Some(false) ==>
              result.attempts == r.cap && result.rejected[result.attempts - 1] == result.newIP
    ensures result.probe.Some? <==> r.probe
  {
    var n := |draws|;
    var last := draws[n - 1];
    var earlier := draws[..n - 1];
    forall i | 0 <= i < |earlier|
      ensures Discarded(earlier[i])
    {
      assert JudgedAt(r, draws, i, s, from);
    }
    DiscardedCount(earlier);
    assert DiscardedIps(draws) == DiscardedIps(draws[..n - 1]) + if Discarded(last) then [last.call.newIP] else [];
    assert JudgedAt(r, draws, n - 1, s, from);
  }

  /** An address kept before the cap was unburned when it was judged and, if probing is on,
      answered its probe. */
  lemma {:induction false} KeptBeforeTheCap(r: Policy, draws: seq<Draw>, result: Outcome, s: Entries, from: int)
    requires Judged(r, draws, s, from) && Concluded(result, draws, r.cap) && result.attempts < r.cap
    ensures r.probe ==> result.probe == Some(true)
    ensures r.isV6.Some? ==>
      var d := draws[|draws| - 1];
      d.call.newIP == result.newIP && !IsBurned(r.isV6.value, d.known, d.call.newIP, r.window, d.at)
  {
    var d := draws[|draws| - 1];
    assert JudgedAt(r, draws, |draws| - 1, s, from) && !Discarded(d);
    assert d.probe.Some? && !d.probe.value ==> d.probe == Some(false);
  }

  // ---------------------------------------------------------------- what it leaves in the cloud

  lemma {:induction false} DrawsSucceeded(r: Policy, topo: Topology, target: Target, j: Journal, k: Journal,
                                          result: Outcome, draws: seq<Draw>)
    requires Accounts(r, topo, target, j, k, result, None, draws, None)
    ensures MadeBy(draws, None) == CallsOf(draws) && draws != [] && AllSucceeded(CallsOf(draws))
    ensures Chain(topo, target.instanceId, j.start, CallsOf(draws), k.start)
  {
    forall i | 0 <= i < |draws| ensures draws[i].call.err.None? {
      assert JudgedAt(r, draws, i, j.known, j.from);
    }
    assert MadeBy(draws, None) == CallsOf(draws);
  }

  /** No address drawn and discarded is still live, and nothing the target carried before: of all
      the rotation allocated, the address it kept is the one that is neither failed nor released. */
  lemma {:induction false} OnlyTheKeptIsLive(r: Policy, topo: Topology, target: Target, j: Journal, k: Journal,
                                             result: Outcome, draws: seq<Draw>)
    requires Accounts(r, topo, target, j, k, result, None, draws, None) && Consistent(j.start)
    ensures draws != []
    ensures var kept := draws[|draws| - 1].call.drawn;
            && LiveSince(j.start, k.start) == {kept} && O.HasAddress(k.start, kept, result.newIP)
            && forall y | Bound(k.start, O.TargetIp(topo, target.instanceId), y) :: y == kept
  {
    DrawsSucceeded(r, topo, target, j, k, result, draws);
    OnlyTheLastIsLive(topo, target.instanceId, j.start, CallsOf(draws), k.start);
  }

  /** A rotation that failed leaves at most one live address of its own behind. */
  lemma {:induction false} AtMostOneIsLive(r: Policy, topo: Topology, target: Target, j: Journal, k: Journal,
                                           result: Outcome, err: Option<Error>, draws: seq<Draw>,
                                           failed: Option<O.Rotation>)
    requires Accounts(r, topo, target, j, k, result, err, draws, failed) && Consistent(j.start)
    ensures |LiveSince(j.start, k.start)| <= 1
  {
    AtMostOneLive(topo, target.instanceId, j.start, MadeBy(draws, failed), k.start);
  }

  /** Every draw after the first fled the address drawn before it. */
  lemma {:induction false} EachDrawFleesTheLast(r: Policy, topo: Topology, target: Target, j: Journal, k: Journal,
                                                result: Outcome, draws: seq<Draw>, i: nat)
    requires Accounts(r, topo, target, j, k, result, None, draws, None) && i + 1 < |draws|
    ensures draws[i + 1].call.oldIP == draws[i].call.newIP && draws[i + 1].call.seen == Some(draws[i].call.drawn)
  {
    DrawsSucceeded(r, topo, target, j, k, result, draws);
    EachFleesTheLast(topo, target.instanceId, j.start, CallsOf(draws), k.start, i);
  }

  /** OldIP is the address found on the target at the start; if none could be named then, it is
      the first address the rotation drew itself and discarded. */
  lemma {:induction false} OldIPMeans(r: Policy, topo: Topology, target: Target, j: Journal, k: Journal,
                                      result: Outcome, draws: seq<Draw>)
    requires Accounts(r, topo, target, j, k, result, None, draws, None)
    ensures draws != []
    ensures var first := draws[0].call;
            result.oldIP == if first.oldIP != "" then first.oldIP else if |draws| > 1 then first.newIP else ""
  {
    DrawsSucceeded(r, topo, target, j, k, result, draws);
    FirstOldMeans(topo, target.instanceId, j.start, CallsOf(draws), k.start);
  }

  /** The address attached to the target when a successful rotation began is the one it reports
      as OldIP, and the store holds it as burned since. */
  lemma {:induction false} WhatTheTargetCarriedIsBurned(r: Policy, topo: Topology, target: Target, j: Journal,
                                                        k: Journal, result: Outcome, draws: seq<Draw>, y: Ocid)
    requires Accounts(r, topo, target, j, k, result, None, draws, None)
    requires Bound(j.start, O.TargetIp(topo, target.instanceId), y) && j.start[y].state.Assigned?
    requires j.start[y].address != ""
    ensures result.oldIP == j.start[y].address && j.start[y].lifetime.Ephemeral?
    ensures r.isV6.Some? ==> result.oldIP in k.known && j.from <= k.known[result.oldIP] <= k.from
  {
    DrawsSucceeded(r, topo, target, j, k, result, draws);
    FledIsReported(topo, target.instanceId, j.start, CallsOf(draws), k.start, y);
  }

  // ---------------------------------------------------------------- the places that publish the address

  /** After a rotation without error and without post errors, every place that publishes the
      address of the target agrees with the cloud. */
  lemma {:induction false} EveryPlaceAgrees(r: R.Rotator, target: Target, result: Outcome, was: seq<Record>)
    requires r.provider != null && |was| == |r.post| && r.Settled(target, result, was) && result.postErrors == {}
    ensures r.Bears(target, result.newIP)
    ensures forall i | 0 <= i < |r.post| && r.post[i].DnsAction? && r.post[i].updater != null
            && target.dnsRecord != "" ::
              r.post[i].updater.Points(target.dnsRecord, result.newIP)
    ensures forall i | 0 <= i < |r.post| && r.post[i].ControlPlaneAction? && r.post[i].plane.baseUrl != ""
            && target.nodeId != "" ::
              var rows := r.post[i].plane.service.repo.rows;
              target.nodeId in rows && rows[target.nodeId].address == result.newIP
    ensures forall i | 0 <= i < |r.post| && r.post[i].SshConfigAction? && target.sshHost != "" && Token(result.newIP) ::
              r.post[i].file.content.Some?
                && SC.Lookup(r.post[i].file.content.value, target.sshHost) == Some(result.newIP)
  {
    DoneIsEffective(r.post, {}, target, result.newIP);
    forall i | 0 <= i < |r.post| && Applies(r.post[i], target, result.newIP)
      && (r.post[i].SshConfigAction? ==> Token(result.newIP))
      ensures Says(r.post[i], target, result.newIP)
    {
    }
  }
}
