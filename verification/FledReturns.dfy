/** When a rotation comes back with the address it fled: before its last allowed draw exactly if
    the store does not hold that address, or a neighbour, as burned; on the last one always. */
module FledReturns {
  import opened Common
  import opened Text
  import opened OciCloud
  import O = Oracle
  import opened RotationHistory
  import opened Burned
  import opened Actions
  import opened Draws
  import opened RotationOutcome

  // ---------------------------------------------------------------- one more draw

  /** A draw judged at `at` on what the store knows, a probe saying `answers`. */
  ghost function NextDraw(r: Policy, n: nat, c: O.Rotation, known: Entries, at: int, answers: bool): Draw {
    var refused := r.isV6.Some? && n + 1 < r.cap && IsBurned(r.isV6.value, known, c.newIP, r.window, at);
    Draw(c, known, at, refused, if r.probe && !refused then Some(answers) else None)
  }

  /** Where a draw leaves the rotator. */
  function Afterwards(r: Policy, k: Journal, d: Draw): Journal {
    Journal(d.call.after, d.at, if FailedProbe(d) && r.isV6.Some? then Put(d.known, d.call.newIP, d.at) else d.known,
            k.trace + d.call.sent, k.calls + [d.call])
  }

  lemma {:induction false} OccupiedMeans(topo: Topology, instance: Ocid, s: State, y: Ocid, text: string)
    requires Occupied(topo, instance, s, y, text)
    ensures y in s && s[y].address == text && O.TargetOf(topo, instance).Some?
  {
  }

  /** After discarded draws, any text can be what the provider draws next. */
  lemma {:induction false} AnythingCanBeDrawn(r: Policy, topo: Topology, target: Target, j: Journal, k: Journal,
                                              draws: seq<Draw>, y: Ocid, was: string, text: string, at: int,
                                              answers: bool)
    returns (d: Draw, x: Ocid)
    requires Drew(r, topo, target, j, k, draws, None) && AllDiscarded(draws) && |draws| < r.cap
    requires Occupied(topo, target.instanceId, k.start, y, was) && text != "" && k.from <= at
    ensures d == NextDraw(r, |draws|, d.call, k.known, at, answers)
    ensures d.call.oldIP == was && d.call.newIP == text && d.call.err.None?
    ensures Drew(r, topo, target, j, Afterwards(r, k, d), draws + [d], None)
    ensures Occupied(topo, target.instanceId, Afterwards(r, k, d).start, x, text)
  {
    hide Drew, Occupied, O.Performed, IsBurned;
    x := FreshString(k.start.Keys);
    OccupiedMeans(topo, target.instanceId, k.start, y, was);
    AnyReplacementCanHappen(topo, target.instanceId, k.start, y, x, text);
    var c := Replacement(topo, target.instanceId, k.start, y, x, text);
    d := NextDraw(r, |draws|, c, k.known, at, answers);
    DrawGrows(r, topo, target, j, k, Afterwards(r, k, d), draws, d);
  }

  // ---------------------------------------------------------------- and the end of it

  /** What the rotation reports when these were its draws. */
  function ResultOf(draws: seq<Draw>): Outcome
    requires draws != []
  {
    var d := draws[|draws| - 1];
    Outcome(FirstOld(CallsOf(draws)), d.call.newIP, |draws|, DiscardedIps(draws), d.probe, {})
  }

  /** Where the rotator is once what was fled has been burned. */
  function Burning(r: Policy, l: Journal, oldIP: string): Journal {
    if r.isV6.Some? then l.(known := Put(l.known, oldIP, l.from)) else l
  }

  /** A draw that was not discarded, or the last allowed, ends the rotation. */
  lemma {:induction false} KeptEndsIt(r: Policy, topo: Topology, target: Target, j: Journal, l: Journal,
                                      draws: seq<Draw>, d: Draw)
    requires Drew(r, topo, target, j, l, draws + [d], None) && AllDiscarded(draws) && |draws| < r.cap
    requires d.call.err.None? && (if |draws| + 1 == r.cap then !d.refused else !Discarded(d))
    ensures var result := ResultOf(draws + [d]);
            Accounts(r, topo, target, j, Burning(r, l, result.oldIP), result, None, draws + [d], None)
  {
    hide Drew, Accounts;
    var before := Outcome(FirstOld(CallsOf(draws)), "", |draws|, DiscardedIps(draws), None, {});
    var result := Entered(before, |draws| + 1, d);
    DrawReports(r, draws, before, result, d);
    assert d.refused ==> |draws| + 1 < r.cap;
    assert result == ResultOf(draws + [d]);
    SuccessAccounts(r, topo, target, j, l, Burning(r, l, result.oldIP), result, result, draws + [d]);
  }

  /** A refused draw before the last allowed does not. */
  lemma {:induction false} RefusedGoesOn(r: Policy, topo: Topology, target: Target, j: Journal, l: Journal,
                                         draws: seq<Draw>, d: Draw, result: Outcome)
    requires Accounts(r, topo, target, j, l, result, None, draws + [d], None) && |draws| + 1 < r.cap && r.isV6.Some?
    ensures !IsBurned(r.isV6.value, d.known, d.call.newIP, r.window, d.at)
  {
    hide IsBurned, Counted;
    assert (draws + [d])[|draws|] == d;
    assert JudgedAt(r, draws + [d], |draws|, j.known, j.from);
  }

  /** After the draws `draws` the rotation can end with a draw of `text`, judged at `at`. */
  ghost predicate CanEndWith(r: Policy, topo: Topology, target: Target, j: Journal, known: Entries, draws: seq<Draw>,
                             text: string, at: int) {
    exists l: Journal, d: Draw, result: Outcome :: EndsWith(r, topo, target, j, known, draws, text, at, l, d, result)
  }

  ghost predicate EndsWith(r: Policy, topo: Topology, target: Target, j: Journal, known: Entries, draws: seq<Draw>,
                           text: string, at: int,
                           l: Journal, d: Draw, result: Outcome) {
    && d.call.newIP == text && d.known == known && d.at == at
    && Accounts(r, topo, target, j, l, result, None, draws + [d], None)
  }

  /** After any discarded draws of any rotation, the next can end it with any text, the fled address
      included, if and only if it is the last one allowed or the store does not hold that text or a
      neighbour as burned. */
  lemma {:induction false} EndsExactlyUnlessBurned(r: Policy, topo: Topology, target: Target, j: Journal, k: Journal,
                                                   draws: seq<Draw>, y: Ocid, was: string, text: string, at: int)
    requires Drew(r, topo, target, j, k, draws, None) && AllDiscarded(draws) && |draws| < r.cap
    requires Occupied(topo, target.instanceId, k.start, y, was) && text != "" && k.from <= at
    ensures CanEndWith(r, topo, target, j, k.known, draws, text, at)
       <==> |draws| + 1 == r.cap || r.isV6.None? || !IsBurned(r.isV6.value, k.known, text, r.window, at)
  {
    hide Drew, Occupied, Accounts, IsBurned;
    if |draws| + 1 == r.cap || r.isV6.None? || !IsBurned(r.isV6.value, k.known, text, r.window, at) {
      var d, x := AnythingCanBeDrawn(r, topo, target, j, k, draws, y, was, text, at, true);
      var l := Afterwards(r, k, d);
      KeptEndsIt(r, topo, target, j, l, draws, d);
      var result := ResultOf(draws + [d]);
      assert EndsWith(r, topo, target, j, k.known, draws, text, at, Burning(r, l, result.oldIP), d, result);
    } else if CanEndWith(r, topo, target, j, k.known, draws, text, at) {
      var l: Journal, d: Draw, result: Outcome :| EndsWith(r, topo, target, j, k.known, draws, text, at, l, d, result);
      RefusedGoesOn(r, topo, target, j, l, draws, d, result);
      assert false;
    }
  }

  // ---------------------------------------------------------------- coming back before the cap

  /** A rotation from `j` to `k` that ends with the address it fled. */
  ghost predicate Returns(r: Policy, topo: Topology, target: Target, j: Journal, k: Journal, draws: seq<Draw>,
                          result: Outcome, ip: string) {
    Accounts(r, topo, target, j, k, result, None, draws, None) && result.newIP == result.oldIP == ip
  }

  ghost predicate ReturnsEarly(r: Policy, topo: Topology, target: Target, j: Journal, ip: string, until: int) {
    exists k: Journal, draws: seq<Draw>, result: Outcome ::
      Returns(r, topo, target, j, k, draws, result, ip) && k.from == until && |draws| < r.cap
  }

  /** Where a rotation ends whose last draw is `d`, met in `k`. */
  function End(r: Policy, draws: seq<Draw>, d: Draw, k: Journal): Journal {
    Burning(r, Afterwards(r, k, d), ResultOf(draws + [d]).oldIP)
  }

  /** The fled address drawn and kept. */
  lemma {:induction false} FledIsKept(r: Policy, topo: Topology, target: Target, j: Journal, k: Journal,
                                      draws: seq<Draw>, d: Draw, ip: string)
    requires Drew(r, topo, target, j, Afterwards(r, k, d), draws + [d], None) && AllDiscarded(draws) && |draws| < r.cap
    requires d.call.err.None? && (if |draws| + 1 == r.cap then !d.refused else !Discarded(d))
    requires ip != "" && d.call.newIP == ip && (draws + [d])[0].call.oldIP == ip
    ensures Returns(r, topo, target, j, End(r, draws, d, k), draws + [d], ResultOf(draws + [d]), ip)
  {
    hide Drew, Accounts, FirstOld, CallsOf, DiscardedIps;
    KeptEndsIt(r, topo, target, j, Afterwards(r, k, d), draws, d);
    OldIPMeans(r, topo, target, j, End(r, draws, d, k), ResultOf(draws + [d]), draws + [d]);
  }

  /** One draw of the fled address, kept. */
  lemma {:induction false} OneDrawReturns(r: Policy, topo: Topology, target: Target, j: Journal, y: Ocid, ip: string,
                                          until: int)
    returns (k: Journal, draws: seq<Draw>, result: Outcome)
    requires Occupied(topo, target.instanceId, j.start, y, ip) && ip != "" && j.from <= until && r.cap > 0
    requires r.cap == 1 || r.isV6.None? || !IsBurned(r.isV6.value, j.known, ip, r.window, until)
    ensures Returns(r, topo, target, j, k, draws, result, ip) && k.from == until && |draws| == 1
  {
    hide Drew, Occupied, Accounts, IsBurned, FirstOld, CallsOf, DiscardedIps;
    DrewNothing(r, topo, target, j);
    var d, x := AnythingCanBeDrawn(r, topo, target, j, j, [], y, ip, ip, until, true);
    FledIsKept(r, topo, target, j, j, [], d, ip);
    draws := [] + [d];
    k, result := End(r, [], d, j), ResultOf(draws);
  }

  lemma {:induction false} StaysBurned(isV6: Parser, s: Entries, t: Entries, added: set<string>, from: int, at: int,
                                       ip: string, window: int, until: int)
    requires Grown(s, t, added, from, at) && at <= until && IsBurned(isV6, s, ip, window, until)
    requires until - from <= window || forall k | k in s :: s[k] <= from
    ensures IsBurned(isV6, t, ip, window, at)
  {
    var k :| k in s && Condemns(s, k, ip, until - window);
    assert Condemns(t, k, ip, at - window);
  }

  /** A rotation that ends early ends with an address the store did not hold as burned. */
  lemma {:induction false} NeverEarlyIfBurned(r: Policy, topo: Topology, target: Target, j: Journal, k: Journal,
                                              draws: seq<Draw>, result: Outcome)
    requires Accounts(r, topo, target, j, k, result, None, draws, None) && |draws| < r.cap && r.isV6.Some?
    requires k.from - j.from <= r.window || forall b | b in j.known :: j.known[b] <= j.from
    ensures !IsBurned(r.isV6.value, j.known, result.newIP, r.window, k.from)
  {
    hide Counted;
    KeptBeforeTheCap(r, draws, result, j.known, j.from);
    var d := draws[|draws| - 1];
    assert JudgedAt(r, draws, |draws| - 1, j.known, j.from) && d.at <= k.from;
    if IsBurned(r.isV6.value, j.known, result.newIP, r.window, k.from) {
      StaysBurned(r.isV6.value, j.known, d.known, FailedIps(draws, |draws| - 1), j.from, d.at, result.newIP, r.window,
                  k.from);
      assert false;
    }
  }

  /** From any state in which the target carries `ip`: there is a rotation that comes back with `ip`
      before its last allowed draw if and only if the store does not hold `ip` or a neighbour as
      burned. Entries from the future are set aside for rotations longer than the window: a probe
      that fails dates them back, and they can then run out on the way. */
  lemma {:induction false} FledReturnsUnlessHeldAsBurned(r: Policy, topo: Topology, target: Target, j: Journal, y: Ocid,
                                                         ip: string, until: int)
    requires Occupied(topo, target.instanceId, j.start, y, ip) && ip != "" && j.from <= until && r.cap >= 2
    requires r.isV6.Some? ==> until - j.from <= r.window || forall b | b in j.known :: j.known[b] <= j.from
    ensures ReturnsEarly(r, topo, target, j, ip, until)
       <==> r.isV6.None? || !IsBurned(r.isV6.value, j.known, ip, r.window, until)
  {
    hide Occupied, Accounts, IsBurned;
    if r.isV6.None? || !IsBurned(r.isV6.value, j.known, ip, r.window, until) {
      var k, draws, result := OneDrawReturns(r, topo, target, j, y, ip, until);
    } else if ReturnsEarly(r, topo, target, j, ip, until) {
      var k: Journal, draws: seq<Draw>, result: Outcome :|
        Returns(r, topo, target, j, k, draws, result, ip) && k.from == until && |draws| < r.cap;
      NeverEarlyIfBurned(r, topo, target, j, k, draws, result);
      assert false;
    }
  }

  // ---------------------------------------------------------------- coming back at the cap

  /** The fled address drawn again and again, refused as burned each time. */
  lemma {:induction false} RefusedAgain(r: Policy, topo: Topology, target: Target, j: Journal, y: Ocid, ip: string,
                                        until: int, n: nat)
    returns (k: Journal, draws: seq<Draw>, x: Ocid)
    requires Occupied(topo, target.instanceId, j.start, y, ip) && ip != "" && j.from <= until && n < r.cap
    requires r.isV6.Some? && IsBurned(r.isV6.value, j.known, ip, r.window, until)
    ensures Drew(r, topo, target, j, k, draws, None) && AllDiscarded(draws) && |draws| == n
    ensures Occupied(topo, target.instanceId, k.start, x, ip) && k.known == j.known && k.from <= until
    ensures n > 0 ==> draws[0].call.oldIP == ip
  {
    hide Drew, Occupied, IsBurned;
    if n == 0 {
      DrewNothing(r, topo, target, j);
      k, draws, x := j, [], y;
    } else {
      var k', init, z := RefusedAgain(r, topo, target, j, y, ip, until, n - 1);
      var d;
      d, x := AnythingCanBeDrawn(r, topo, target, j, k', init, z, ip, ip, until, true);
      k, draws := Afterwards(r, k', d), init + [d];
    }
  }

  /** And whatever the store holds and the policy is, the fled address can come back: on the first draw
      if it is not held as burned, and on the last one allowed if it is. */
  lemma {:induction false} FledCanAlwaysReturn(r: Policy, topo: Topology, target: Target, j: Journal, y: Ocid,
                                               ip: string, until: int)
    requires Occupied(topo, target.instanceId, j.start, y, ip) && ip != "" && j.from <= until && r.cap > 0
    ensures exists k: Journal, draws: seq<Draw>, result: Outcome ::
              && Returns(r, topo, target, j, k, draws, result, ip) && k.from == until
              && |draws| == if r.isV6.Some? && IsBurned(r.isV6.value, j.known, ip, r.window, until) then r.cap else 1
  {
    hide Drew, Occupied, Accounts, IsBurned, FirstOld, CallsOf, DiscardedIps;
    if r.isV6.Some? && IsBurned(r.isV6.value, j.known, ip, r.window, until) && r.cap > 1 {
      var k', init, z := RefusedAgain(r, topo, target, j, y, ip, until, r.cap - 1);
      var d, x := AnythingCanBeDrawn(r, topo, target, j, k', init, z, ip, ip, until, true);
      FledIsKept(r, topo, target, j, k', init, d, ip);
      var draws := init + [d];
      assert Returns(r, topo, target, j, End(r, init, d, k'), draws, ResultOf(draws), ip);
    } else {
      var k, draws, result := OneDrawReturns(r, topo, target, j, y, ip, until);
    }
  }

  // ---------------------------------------------------------------- two inputs

  /** The first draw, of `b`, fails its probe, and the second returns `a`, which was fled. */
  lemma {:induction false} SecondDrawReturns(r: Policy, topo: Topology, target: Target, j: Journal, y: Ocid, a: string,
                                             b: string, until: int)
    returns (k: Journal, draws: seq<Draw>, result: Outcome)
    requires Occupied(topo, target.instanceId, j.start, y, a) && a != "" && b != "" && j.from <= until
    requires r.probe && r.cap >= 2 && r.isV6.Some? && !IsBurned(r.isV6.value, j.known, b, r.window, until)
    requires r.cap == 2 || !IsBurned(r.isV6.value, Put(j.known, b, until), a, r.window, until)
    ensures Returns(r, topo, target, j, k, draws, result, a) && |draws| == 2
    ensures draws[0].call.newIP == b && FailedProbe(draws[0])
  {
    hide Drew, Occupied, Accounts, IsBurned, FirstOld, CallsOf, DiscardedIps;
    DrewNothing(r, topo, target, j);
    var c, x := AnythingCanBeDrawn(r, topo, target, j, j, [], y, a, b, until, false);
    assert [] + [c] == [c];
    var mid := Afterwards(r, j, c);
    var d, z := AnythingCanBeDrawn(r, topo, target, j, mid, [c], x, b, a, until, true);
    FledIsKept(r, topo, target, j, mid, [c], d, a);
    draws := [c] + [d];
    k, result := End(r, [c], d, mid), ResultOf(draws);
  }

  /** A tenancy with one instance, whose private IP is "p". */
  const TENANCY := Topology(map["i" := Instance("i", "c", "node")], map["i" := [Attachment("v", true)]],
                            map["v" := true], map["v" := [PrivateIp("p", "c", true)]])

  const NODE := Target("node", "i", "", "", "")

  /** Where a rotation of it begins when it carries `ip` and `known` is what the store holds. */
  function Carrying(ip: string, known: Entries): Journal {
    Journal(map["y" := PublicIp(ip, Ephemeral, Assigned, "p")], 1, known, [], [])
  }

  lemma {:induction false} CarryingIsOccupied(ip: string, known: Entries)
    ensures Occupied(TENANCY, NODE.instanceId, Carrying(ip, known).start, "y", ip)
  {
    assert O.PrimaryVnic(TENANCY, [Attachment("v", true)]) == Some("v");
    assert O.PrimaryOf([PrivateIp("p", "c", true)]) == Some(PrivateIp("p", "c", true));
  }

  lemma {:induction false} NoDotsNoV4(ip: string)
    requires '.' !in ip
    ensures !IsV4(ip)
  {
    SplitPrefix(ip, "", '.');
    assert ip + "" == ip;
  }

  /** Burned at the start and still back: the first draw fails its probe, and the second, the last
      one allowed, returns the fled address and is kept. */
  lemma {:induction false} CappedDrawReturnsTheFled(isV6: Parser)
    returns (k: Journal, draws: seq<Draw>, result: Outcome)
    requires isV6("fd::a")
    ensures var r, j := Policy(2, true, Some(isV6), 100), Carrying("fd::a", map["fd::a" := 0]);
            && IsBurned(isV6, j.known, "fd::a", 100, 1) && Returns(r, TENANCY, NODE, j, k, draws, result, "fd::a")
            && |draws| == 2 && draws[0].call.newIP == "fd::b" && FailedProbe(draws[0])
  {
    var r, j := Policy(2, true, Some(isV6), 100), Carrying("fd::a", map["fd::a" := 0]);
    NoDotsNoV4("fd::a");
    CarryingIsOccupied("fd::a", j.known);
    assert Condemns(j.known, "fd::a", "fd::a", 1 - 100);
    k, draws, result := SecondDrawReturns(r, TENANCY, NODE, j, "y", "fd::a", "fd::b", 1);
  }

  /** From an empty store: the first draw fails its probe, and the second returns the fled address
      and is kept although a third was allowed. */
  lemma {:induction false} SecondDrawReturnsTheFled(isV6: Parser)
    returns (k: Journal, draws: seq<Draw>, result: Outcome)
    ensures var r, j := Policy(3, true, Some(isV6), 100), Carrying("fd::a", map[]);
            && Returns(r, TENANCY, NODE, j, k, draws, result, "fd::a")
            && |draws| == 2 && draws[0].call.newIP == "fd::b" && FailedProbe(draws[0])
  {
    var r, j := Policy(3, true, Some(isV6), 100), Carrying("fd::a", map[]);
    NoDotsNoV4("fd::a");
    CarryingIsOccupied("fd::a", j.known);
    k, draws, result := SecondDrawReturns(r, TENANCY, NODE, j, "y", "fd::a", "fd::b", 1);
  }
}
