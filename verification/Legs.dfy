/** A run over many targets: one leg each, over one cloud, one store of burned addresses and one
    set of places that publish addresses. */
module Legs {
  import opened Common
  import opened Text
  import opened OciCloud
  import O = Oracle
  import opened RotationHistory
  import opened Burned
  import opened Actions
  import opened Draws

  /** One target's part in a run: what it reported, the draws behind that, and the cloud, the store
      and the places before and after it. */
  datatype Leg = Leg(target: Target, result: Outcome, err: Option<Error>, draws: seq<Draw>, failed: Option<O.Rotation>,
                     before: Journal, after: Journal, was: seq<Record>, now: seq<Record>)

  /** The leg is a rotation of its target: accounted for draw by draw, and either the provider failed
      and no place changed, or cloud and places bear the new address and spared other targets. */
  ghost predicate Rotated(r: Policy, topo: Topology, post: seq<PostAction>, leg: Leg) {
    && Accounts(r, topo, leg.target, leg.before, leg.after, leg.result, leg.err, leg.draws, leg.failed)
    && |leg.was| == |post| == |leg.now|
    && (if leg.err.Some? then leg.now == leg.was
        else
          && leg.result.newIP != ""
            && Carries(leg.after.start, O.TargetIp(topo, leg.target.instanceId), leg.result.newIP)
          && Progress(post, leg.was, leg.now, |post|, leg.result.postErrors, leg.target, leg.result.newIP))
  }

  /** The legs rotated the targets in order, each from where the one before it ended, and lead from
      the state `j` with places `was` to the state `k` with places `now`. */
  ghost predicate Course(r: Policy, topo: Topology, post: seq<PostAction>, targets: seq<Target>, legs: seq<Leg>,
                         j: Journal, was: seq<Record>, k: Journal, now: seq<Record>)
    decreases |legs|
  {
    && |targets| == |legs|
    && if legs == [] then k == j && now == was
       else
         var leg := legs[|legs| - 1];
         && Course(r, topo, post, targets[..|legs| - 1], legs[..|legs| - 1], j, was, leg.before, leg.was)
         && leg.target == targets[|legs| - 1] && Rotated(r, topo, post, leg) && leg.after == k && leg.now == now
  }

  function Failures(legs: seq<Leg>): nat {
    if legs == [] then 0 else Failures(legs[..|legs| - 1]) + if legs[|legs| - 1].err.Some? then 1 else 0
  }

  lemma {:induction false} CourseGrows(r: Policy, topo: Topology, post: seq<PostAction>, targets: seq<Target>,
                                       legs: seq<Leg>, j: Journal, was: seq<Record>, leg: Leg)
    requires Course(r, topo, post, targets, legs, j, was, leg.before, leg.was) && Rotated(r, topo, post, leg)
    ensures Course(r, topo, post, targets + [leg.target], legs + [leg], j, was, leg.after, leg.now)
    ensures Failures(legs + [leg]) == Failures(legs) + if leg.err.Some? then 1 else 0
  {
    hide Rotated;
    assert (legs + [leg])[..|legs|] == legs && (targets + [leg.target])[..|legs|] == targets;
  }

  lemma {:induction false} CourseAt(r: Policy, topo: Topology, post: seq<PostAction>, targets: seq<Target>,
                                    legs: seq<Leg>, j: Journal, was: seq<Record>, k: Journal, now: seq<Record>, i: nat)
    requires Course(r, topo, post, targets, legs, j, was, k, now) && i < |legs|
    ensures |targets| == |legs| && legs[i].target == targets[i] && Rotated(r, topo, post, legs[i])
    ensures Course(r, topo, post, targets[..i], legs[..i], j, was, legs[i].before, legs[i].was)
  {
    hide Rotated;
    var n := |legs| - 1;
    if i < n {
      CourseAt(r, topo, post, targets[..n], legs[..n], j, was, legs[n].before, legs[n].was, i);
      assert legs[..n][..i] == legs[..i] && targets[..n][..i] == targets[..i];
    }
  }

  lemma {:induction false} LegTakesTime(r: Policy, topo: Topology, post: seq<PostAction>, leg: Leg)
    requires Rotated(r, topo, post, leg)
    ensures leg.before.from <= leg.after.from
  {
  }

  /** Time never runs backwards over a run. */
  lemma {:induction false} CourseTakesTime(r: Policy, topo: Topology, post: seq<PostAction>, targets: seq<Target>,
                                           legs: seq<Leg>, j: Journal, was: seq<Record>, k: Journal, now: seq<Record>)
    requires Course(r, topo, post, targets, legs, j, was, k, now)
    ensures j.from <= k.from
  {
    hide Rotated;
    if legs != [] {
      var n := |legs| - 1;
      LegTakesTime(r, topo, post, legs[n]);
      CourseTakesTime(r, topo, post, targets[..n], legs[..n], j, was, legs[n].before, legs[n].was);
    }
  }

  // ---------------------------------------------------------------- what the provider was asked for

  function MadeIn(legs: seq<Leg>): seq<O.Rotation> {
    if legs == [] then [] else MadeIn(legs[..|legs| - 1]) + MadeBy(legs[|legs| - 1].draws, legs[|legs| - 1].failed)
  }

  function AttemptsIn(legs: seq<Leg>): nat {
    if legs == [] then 0 else AttemptsIn(legs[..|legs| - 1]) + legs[|legs| - 1].result.attempts
  }

  lemma {:induction false} SentByConcat(a: seq<O.Rotation>, b: seq<O.Rotation>)
    ensures SentBy(a + b) == SentBy(a) + SentBy(b)
  {
    if b == [] {
      assert a + b == a;
    } else {
      assert (a + b)[..|a + b| - 1] == a + b[..|b| - 1];
      SentByConcat(a, b[..|b| - 1]);
    }
  }

  lemma {:induction false} LegCounts(r: Policy, topo: Topology, post: seq<PostAction>, leg: Leg)
    requires Rotated(r, topo, post, leg)
    ensures var made := MadeBy(leg.draws, leg.failed);
            && leg.after.calls == leg.before.calls + made && leg.after.trace == leg.before.trace + SentBy(made)
            && |made| == leg.result.attempts
  {
  }

  /** Over a run the provider was asked for exactly the rotations the legs report, as many as their
      attempts, and the cloud was sent exactly what those sent. */
  lemma {:induction false} CourseCounts(r: Policy, topo: Topology, post: seq<PostAction>, targets: seq<Target>,
                                        legs: seq<Leg>, j: Journal, was: seq<Record>, k: Journal, now: seq<Record>)
    requires Course(r, topo, post, targets, legs, j, was, k, now)
    ensures k.calls == j.calls + MadeIn(legs) && k.trace == j.trace + SentBy(MadeIn(legs))
    ensures |MadeIn(legs)| == AttemptsIn(legs)
  {
    hide Rotated, SentBy, MadeBy;
    if legs == [] {
      SentByNothing();
      assert j.calls + [] == j.calls && j.trace + [] == j.trace;
    } else {
      var n := |legs| - 1;
      var made := MadeBy(legs[n].draws, legs[n].failed);
      LegCounts(r, topo, post, legs[n]);
      CourseCounts(r, topo, post, targets[..n], legs[..n], j, was, legs[n].before, legs[n].was);
      SentByConcat(MadeIn(legs[..n]), made);
      assert k.calls == j.calls + MadeIn(legs[..n]) + made == j.calls + (MadeIn(legs[..n]) + made);
      assert k.trace == j.trace + SentBy(MadeIn(legs[..n])) + SentBy(made);
    }
  }

  lemma {:induction false} SentByNothing()
    ensures SentBy([]) == []
  {
  }

  // ---------------------------------------------------------------- burned addresses over a run

  /** The addresses one leg burned. */
  function BurnedBy(leg: Leg): set<string> {
    FailedIps(leg.draws, |leg.draws|) + Fled(leg.result, leg.err)
  }

  function BurnedBefore(legs: seq<Leg>, n: nat): set<string>
    requires n <= |legs|
  {
    if n == 0 then {} else BurnedBefore(legs, n - 1) + BurnedBy(legs[n - 1])
  }

  /** Every address of `ips` is held as burned no earlier than `from`. */
  ghost predicate Holds(e: Entries, ips: set<string>, from: int) {
    forall ip | ip in ips :: ip in e && e[ip] >= from
  }

  predicate NoneNear(ips: set<string>, ip: string) {
    forall b | b in ips :: !SameNet(b, ip)
  }

  /** No address in the /24 of one that was burned earlier in the run was kept on a draw
      before the leg's last allowed one. */
  ghost predicate AvoidsNeighbours(legs: seq<Leg>, i: nat, cap: nat)
    requires i < |legs|
  {
    var draws := legs[i].draws;
    legs[i].err.None? && 0 < |draws| < cap ==>
      NoneNear(BurnedBefore(legs, i) + FailedIps(draws, |draws| - 1), draws[|draws| - 1].call.newIP)
  }

  lemma {:induction false} GrownHolds(s: Entries, t: Entries, added: set<string>, from: int, until: int,
                                      ips: set<string>, start: int)
    requires Grown(s, t, added, from, until) && start <= from && Holds(s, ips, start)
    ensures Holds(t, ips + added, start)
  {
  }

  /** An address in the /24 of one the store holds as burned within the window counts as burned. */
  lemma {:induction false} NearIsBurned(r: Policy, d: Draw, ips: set<string>, start: int)
    requires r.isV6.Some? && r.window > 0 && d.call.newIP != ""
    requires Holds(d.known, ips, start) && d.at - r.window <= start
    ensures NoneNear(ips, d.call.newIP) || IsBurned(r.isV6.value, d.known, d.call.newIP, r.window, d.at)
  {
    if !NoneNear(ips, d.call.newIP) {
      var b :| b in ips && SameNet(b, d.call.newIP);
      assert Condemns(d.known, b, d.call.newIP, d.at - r.window);
    }
  }

  lemma {:induction false} BurnedBeforePrefix(legs: seq<Leg>, m: nat, n: nat)
    requires n <= m <= |legs|
    ensures BurnedBefore(legs[..m], n) == BurnedBefore(legs, n)
  {
    if n > 0 {
      BurnedBeforePrefix(legs, m, n - 1);
    }
  }

  /** The store holds everything the run has burned so far. */
  lemma {:induction false} CourseHolds(r: Policy, topo: Topology, post: seq<PostAction>, targets: seq<Target>,
                                       legs: seq<Leg>, j: Journal, was: seq<Record>, k: Journal, now: seq<Record>)
    requires Course(r, topo, post, targets, legs, j, was, k, now) && r.isV6.Some?
    ensures Holds(k.known, BurnedBefore(legs, |legs|), j.from)
  {
    if legs != [] {
      var n := |legs| - 1;
      var leg := legs[n];
      CourseHolds(r, topo, post, targets[..n], legs[..n], j, was, leg.before, leg.was);
      CourseTakesTime(r, topo, post, targets[..n], legs[..n], j, was, leg.before, leg.was);
      BurnedBeforePrefix(legs, n, n);
      GrownHolds(leg.before.known, k.known, BurnedBy(leg), leg.before.from, k.from, BurnedBefore(legs, n), j.from);
    }
  }

  /** A leg avoids the neighbours of everything the store holds when it starts. */
  lemma {:induction false} LegAvoids(r: Policy, topo: Topology, leg: Leg, ips: set<string>, start: int, until: int)
    requires r.isV6.Some? && r.window > 0 && start <= leg.before.from && until - start <= r.window
    requires leg.after.from <= until
    requires Accounts(r, topo, leg.target, leg.before, leg.after, leg.result, leg.err, leg.draws, leg.failed)
    requires Holds(leg.before.known, ips, start) && leg.err.None? && 0 < |leg.draws| < r.cap
    ensures NoneNear(ips + FailedIps(leg.draws, |leg.draws| - 1), leg.draws[|leg.draws| - 1].call.newIP)
  {
    hide Counted;
    var n := |leg.draws|;
    var d := leg.draws[n - 1];
    assert JudgedAt(r, leg.draws, n - 1, leg.before.known, leg.before.from) && d.at <= leg.after.from;
    GrownHolds(leg.before.known, d.known, FailedIps(leg.draws, n - 1), leg.before.from, d.at, ips, start);
    NearIsBurned(r, d, ips + FailedIps(leg.draws, n - 1), start);
  }

  /** In a run no longer than the burn window, no leg keeps, before its last allowed draw, an
      address in the /24 of one burned earlier in the run. */
  lemma {:induction false} RunAvoidsNeighbours(r: Policy, topo: Topology, post: seq<PostAction>, targets: seq<Target>,
                                               legs: seq<Leg>, j: Journal, was: seq<Record>, k: Journal,
                                               now: seq<Record>, i: nat)
    requires Course(r, topo, post, targets, legs, j, was, k, now) && i < |legs|
    requires r.isV6.Some? && r.window > 0 && k.from - j.from <= r.window
    ensures AvoidsNeighbours(legs, i, r.cap)
  {
    CourseAt(r, topo, post, targets, legs, j, was, k, now, i);
    CourseEndsLater(r, topo, post, targets, legs, j, was, k, now, i);
    CourseHolds(r, topo, post, targets[..i], legs[..i], j, was, legs[i].before, legs[i].was);
    CourseTakesTime(r, topo, post, targets[..i], legs[..i], j, was, legs[i].before, legs[i].was);
    BurnedBeforePrefix(legs, i, i);
    if legs[i].err.None? && 0 < |legs[i].draws| < r.cap {
      LegAvoids(r, topo, legs[i], BurnedBefore(legs, i), j.from, k.from);
    }
  }

  lemma {:induction false} CourseEndsLater(r: Policy, topo: Topology, post: seq<PostAction>, targets: seq<Target>,
                                           legs: seq<Leg>, j: Journal, was: seq<Record>, k: Journal, now: seq<Record>,
                                           i: nat)
    requires Course(r, topo, post, targets, legs, j, was, k, now) && i < |legs|
    ensures legs[i].after.from <= k.from
  {
    hide Rotated;
    var n := |legs| - 1;
    if i < n {
      CourseAt(r, topo, post, targets, legs, j, was, k, now, n);
      LegTakesTime(r, topo, post, legs[n]);
      CourseEndsLater(r, topo, post, targets[..n], legs[..n], j, was, legs[n].before, legs[n].was, i);
    }
  }

  // ---------------------------------------------------------------- where a run leaves its targets

  /** What leg `i` did to place `p` for its own target cannot be touched by any later leg. */
  ghost predicate StaysApart(a: PostAction, p: nat, legs: seq<Leg>, i: nat)
    requires i < |legs| && p < |legs[i].now|
  {
    forall m | i < m < |legs| ::
      ApartIn(a, legs[i].now[p], legs[m].target, legs[i].target) && (legs[m].err.None? ==> Token(legs[m].result.newIP))
  }

  /** A leg leaves alone what the place says for a target apart from its own. */
  lemma {:induction false} LegSpares(r: Policy, topo: Topology, post: seq<PostAction>, leg: Leg, p: nat)
    requires Rotated(r, topo, post, leg) && p < |post| && (leg.err.None? ==> Token(leg.result.newIP))
    ensures Spares(post[p], leg.was[p], leg.now[p], leg.target)
  {
  }

  lemma {:induction false} PlaceKept(r: Policy, topo: Topology, post: seq<PostAction>, targets: seq<Target>,
                                     legs: seq<Leg>, j: Journal, was: seq<Record>, k: Journal, now: seq<Record>, i: nat,
                                     p: nat, target: Target, ip: string)
    requires Course(r, topo, post, targets, legs, j, was, k, now) && i < |legs| && p < |post| && |legs[i].now| == |post|
    requires SaysIn(post[p], legs[i].now[p], target, ip)
    requires forall m | i < m < |legs| ::
               ApartIn(post[p], legs[i].now[p], legs[m].target, target)
                 && (legs[m].err.None? ==> Token(legs[m].result.newIP))
    ensures |now| == |post| && SaysIn(post[p], now[p], target, ip)
    ensures forall x, y | ApartIn(post[p], legs[i].now[p], x, y) :: ApartIn(post[p], now[p], x, y)
    decreases |legs|
  {
    hide SaysIn, ApartIn, Rotated;
    var n := |legs| - 1;
    CourseAt(r, topo, post, targets, legs, j, was, k, now, n);
    RotatedPlaces(r, topo, post, legs[n]);
    if i < n {
      PlaceKept(r, topo, post, targets[..n], legs[..n], j, was, legs[n].before, legs[n].was, i, p, target, ip);
      LegSpares(r, topo, post, legs[n], p);
    }
  }

  lemma {:induction false} RotatedPlaces(r: Policy, topo: Topology, post: seq<PostAction>, leg: Leg)
    requires Rotated(r, topo, post, leg)
    ensures |leg.was| == |post| == |leg.now|
  {
  }

  /** Every place that a leg made say its address still says it at the end of the run, if the later
      targets are known there by other names. */
  lemma {:induction false} EveryPlaceStays(r: Policy, topo: Topology, post: seq<PostAction>, targets: seq<Target>,
                                           legs: seq<Leg>, j: Journal, was: seq<Record>, k: Journal, now: seq<Record>,
                                           i: nat, p: nat)
    requires Course(r, topo, post, targets, legs, j, was, k, now) && i < |legs| && p < |post| && |legs[i].now| == |post|
    requires legs[i].err.None? && Name(post[p]) !in legs[i].result.postErrors
    requires Applies(post[p], targets[i], legs[i].result.newIP)
    requires post[p].SshConfigAction? ==> Token(legs[i].result.newIP)
    requires StaysApart(post[p], p, legs, i)
    ensures |now| == |post| && SaysIn(post[p], now[p], targets[i], legs[i].result.newIP)
  {
    CourseAt(r, topo, post, targets, legs, j, was, k, now, i);
    PlaceKept(r, topo, post, targets, legs, j, was, k, now, i, p, targets[i], legs[i].result.newIP);
  }

  lemma {:induction false} LegLeavesOthers(r: Policy, topo: Topology, post: seq<PostAction>, leg: Leg, q: Ocid,
                                           ip: string)
    requires Rotated(r, topo, post, leg) && Consistent(leg.before.start)
    requires q != O.TargetIp(topo, leg.target.instanceId) && Carries(leg.before.start, q, ip)
    ensures Carries(leg.after.start, q, ip)
  {
    var x :| x in leg.before.start && Bound(leg.before.start, q, x) && O.HasAddress(leg.before.start, x, ip);
    OthersKeepTheirs(topo, leg.target.instanceId, leg.before.start, MadeBy(leg.draws, leg.failed), leg.after.start, q,
                     x);
    assert Bound(leg.after.start, q, x) && O.HasAddress(leg.after.start, x, ip);
  }

  lemma {:induction false} CourseConsistent(r: Policy, topo: Topology, post: seq<PostAction>, targets: seq<Target>,
                                            legs: seq<Leg>, j: Journal, was: seq<Record>, k: Journal, now: seq<Record>)
    requires Course(r, topo, post, targets, legs, j, was, k, now) && Consistent(j.start)
    ensures Consistent(k.start)
  {
    if legs != [] {
      var n := |legs| - 1;
      var leg := legs[n];
      CourseConsistent(r, topo, post, targets[..n], legs[..n], j, was, leg.before, leg.was);
      ChainConfines(topo, leg.target.instanceId, leg.before.start, MadeBy(leg.draws, leg.failed), leg.after.start);
    }
  }

  /** The cloud still carries every leg's address at the end of the run, if the later targets are
      other private IPs. */
  lemma {:induction false} EveryTargetStays(r: Policy, topo: Topology, post: seq<PostAction>, targets: seq<Target>,
                                            legs: seq<Leg>, j: Journal, was: seq<Record>, k: Journal, now: seq<Record>,
                                            i: nat)
    requires Course(r, topo, post, targets, legs, j, was, k, now) && Consistent(j.start) && i < |legs|
    requires legs[i].err.None?
    requires forall m | i < m < |legs| ::
               O.TargetIp(topo, legs[m].target.instanceId) != O.TargetIp(topo, legs[i].target.instanceId)
    ensures Carries(k.start, O.TargetIp(topo, legs[i].target.instanceId), legs[i].result.newIP)
    decreases |legs|
  {
    hide Rotated, Carries;
    var n := |legs| - 1;
    CourseAt(r, topo, post, targets, legs, j, was, k, now, n);
    if i < n {
      CourseConsistent(r, topo, post, targets[..n], legs[..n], j, was, legs[n].before, legs[n].was);
      EveryTargetStays(r, topo, post, targets[..n], legs[..n], j, was, legs[n].before, legs[n].was, i);
      LegLeavesOthers(r, topo, post, legs[n], O.TargetIp(topo, legs[i].target.instanceId), legs[i].result.newIP);
    } else {
      RotatedCarries(r, topo, post, legs[n]);
    }
  }

  lemma {:induction false} RotatedCarries(r: Policy, topo: Topology, post: seq<PostAction>, leg: Leg)
    requires Rotated(r, topo, post, leg) && leg.err.None?
    ensures Carries(leg.after.start, O.TargetIp(topo, leg.target.instanceId), leg.result.newIP)
  {
  }
}
