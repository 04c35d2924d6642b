/** What any run of requests can do to the cloud when its deletes name one address and its
    creates name one private IP. Nothing here depends on how the requests are scheduled,
    retried or answered. */
module RotationSafety {
  import opened Common
  import opened OciCloud

  /** Deletes name `seen`; creates name `p`. */
  ghost predicate Confined(tr: seq<Event>, p: Ocid, seen: Option<Ocid>) {
    forall i | 0 <= i < |tr| ::
      && (tr[i].req.DeletePublicIp? ==> seen == Some(tr[i].req.id))
      && (tr[i].req.CreatePublicIp? ==> tr[i].req.priv == p)
  }

  /** Before event `i`, private IP `p` answered 404, and any address seen on it at the
      start had been deleted before that answer. */
  ghost predicate ObservedBare(tr: seq<Event>, i: int, p: Ocid, seen: Option<Ocid>)
    requires i <= |tr|
  {
    exists k | 0 <= k < i ::
      && tr[k].req == GetByPrivateIp(p) && tr[k].reply == ApiError(404)
      && (seen.Some? ==> Deleted(tr, k, seen.value))
  }

  ghost predicate Deleted(tr: seq<Event>, i: int, x: Ocid)
    requires i <= |tr|
  {
    exists j | 0 <= j < i :: tr[j].req == DeletePublicIp(x)
  }

  /** The order a rotation keeps: every create follows an observation that the private IP is
      bare, which itself follows the delete of whatever the private IP carried. */
  ghost predicate Ordered(tr: seq<Event>, p: Ocid, seen: Option<Ocid>) {
    forall i | 0 <= i < |tr| && tr[i].req.CreatePublicIp? :: ObservedBare(tr, i, p, seen)
  }

  ghost predicate ReadOnly(tr: seq<Event>) {
    forall i | 0 <= i < |tr| :: Reads(tr[i].req)
  }

  lemma {:induction false} ObservedBareExtends(a: seq<Event>, b: seq<Event>, i: int, p: Ocid, seen: Option<Ocid>)
    requires 0 <= i <= |a| && ObservedBare(a, i, p, seen)
    ensures forall n | i <= n <= |a + b| :: ObservedBare(a + b, n, p, seen)
  {
    var k :| 0 <= k < i && a[k].req == GetByPrivateIp(p) && a[k].reply == ApiError(404)
      && (seen.Some? ==> Deleted(a, k, seen.value));
    assert (a + b)[k] == a[k];
    if seen.Some? {
      var j :| 0 <= j < k && a[j].req == DeletePublicIp(seen.value);
      assert (a + b)[j] == a[j];
      assert Deleted(a + b, k, seen.value);
    }
  }

  /** Appending events that create nothing, or that follow a bare observation, keeps the order. */
  lemma {:induction false} OrderedConcat(a: seq<Event>, b: seq<Event>, p: Ocid, seen: Option<Ocid>)
    requires Ordered(a, p, seen)
    requires ReadOnly(b) || (forall i | 0 <= i < |b| :: b[i].req.DeletePublicIp?) || ObservedBare(a, |a|, p, seen)
    ensures Ordered(a + b, p, seen)
  {
    forall i | 0 <= i < |a + b| && (a + b)[i].req.CreatePublicIp?
      ensures ObservedBare(a + b, i, p, seen)
    {
      if i < |a| {
        assert a[i].req.CreatePublicIp?;
        ObservedBareExtends(a, b, i, p, seen);
      } else {
        assert b[i - |a|].req.CreatePublicIp?;
        ObservedBareExtends(a, b, |a|, p, seen);
      }
    }
  }

  /** Reading changes nothing: all that happens is what the cloud does on its own. */
  lemma {:induction false} ReadOnlyEvolves(topo: Topology, s: State, tr: seq<Event>, t: State)
    requires Run(topo, s, tr, t) && ReadOnly(tr)
    ensures Evolves(s, t)
    decreases |tr|
  {
    if tr != [] {
      ReadOnlyEvolves(topo, tr[0].at, tr[1..], t);
    }
  }

  lemma {:induction false} ReadOnlyAt(topo: Topology, s: State, tr: seq<Event>, t: State, i: nat)
    requires Run(topo, s, tr, t) && ReadOnly(tr) && i < |tr|
    ensures Evolves(s, tr[i].at) && Served(topo, tr[i]) && Evolves(tr[i].at, t)
    decreases |tr|
  {
    if i == 0 {
      ReadOnlyEvolves(topo, tr[0].at, tr[1..], t);
    } else {
      ReadOnlyAt(topo, tr[0].at, tr[1..], t, i - 1);
      assert tr[1..][i - 1] == tr[i];
    }
  }

  lemma {:induction false} ReadOnlyRun(topo: Topology, s: State, tr: seq<Event>, t: State)
    requires Run(topo, s, tr, t) && ReadOnly(tr)
    ensures Evolves(s, t)
    ensures forall i | 0 <= i < |tr| :: Evolves(s, tr[i].at) && Served(topo, tr[i]) && Evolves(tr[i].at, t)
  {
    ReadOnlyEvolves(topo, s, tr, t);
    forall i | 0 <= i < |tr| ensures Evolves(s, tr[i].at) && Served(topo, tr[i]) && Evolves(tr[i].at, t) {
      ReadOnlyAt(topo, s, tr, t, i);
    }
  }

  /** The last request of a run, the addresses known when it was met, and what it left. */
  lemma {:induction false} RunLast(topo: Topology, s: State, tr: seq<Event>, t: State)
    requires Run(topo, s, tr, t) && tr != []
    ensures var e := tr[|tr| - 1]; Served(topo, e) && s.Keys <= e.at.Keys && Evolves(Apply(e.at, e.eff), t)
    decreases |tr|
  {
    if |tr| > 1 {
      RunLast(topo, Apply(tr[0].at, tr[0].eff), tr[1..], t);
    }
  }

  // ---------------------------------------------------------------- what may have changed

  predicate Gone(l: Lifecycle) {
    l.Detaching? || l.Released?
  }

  /** How one address may have moved; only a deleted one may have been let go. */
  predicate Shifts(a: Lifecycle, b: Lifecycle, deleted: bool) {
    Moves(a, b) || (deleted && (a.Assigning? || a.Assigned?) && Gone(b))
  }

  ghost predicate Safe(s: State, t: State, p: Ocid, seen: Option<Ocid>) {
    && s.Keys <= t.Keys
    && (forall y | y in s :: t[y] == s[y].(state := t[y].state) && Shifts(s[y].state, t[y].state, seen == Some(y)))
    && (forall y | y in t && y !in s ::
          && y != ""
          && t[y].privateIp == p && t[y].lifetime.Ephemeral?
          && (t[y].state.Assigning? || t[y].state.Assigned? || t[y].state.Failed?))
  }

  ghost predicate Known(s: State, seen: Option<Ocid>) {
    seen.Some? ==> seen.value in s || seen.value == ""
  }

  lemma {:induction false} SafeTransitive(r: State, s: State, t: State, p: Ocid, seen: Option<Ocid>)
    requires Known(r, seen) && Safe(r, s, p, seen) && Safe(s, t, p, seen)
    ensures Safe(r, t, p, seen)
  {
    forall y | y in t && y !in r
      ensures y != "" && t[y].privateIp == p && t[y].lifetime.Ephemeral?
      ensures t[y].state.Assigning? || t[y].state.Assigned? || t[y].state.Failed?
    {
      if y in s {
        assert seen != Some(y);
      }
    }
  }

  /** Whatever the cloud answers, drops, delays or applies twice, a confined run releases at
      most the one address it deletes, and everything it allocates is new, ephemeral and on `p`. */
  lemma {:induction false} ConfinedRunIsSafe(topo: Topology, s: State, tr: seq<Event>, t: State, p: Ocid,
                                             seen: Option<Ocid>)
    requires Run(topo, s, tr, t) && Confined(tr, p, seen) && Known(s, seen)
    ensures Safe(s, t, p, seen)
    decreases |tr|
  {
    if tr != [] {
      var s' := Apply(tr[0].at, tr[0].eff);
      assert Safe(s, s', p, seen);
      ConfinedRunIsSafe(topo, s', tr[1..], t, p, seen);
      SafeTransitive(s, s', t, p, seen);
    }
  }

  ghost function AllocatedSince(s: State, t: State): set<Ocid> {
    t.Keys - s.Keys
  }

  ghost function FailedSince(s: State, t: State): set<Ocid> {
    set y | y in t && y !in s && t[y].state.Failed?
  }

  ghost function ReleasedSince(s: State, t: State): set<Ocid> {
    set y | y in t && Gone(t[y].state) && (y in s ==> !Gone(s[y].state))
  }

  lemma {:induction false} AtMostOne<T>(a: set<T>)
    requires forall x, y | x in a && y in a :: x == y
    ensures |a| <= 1
  {
    if x :| x in a {
      assert a == {x};
    }
  }

  lemma {:induction false} SurvivorIsUnique(s: State, t: State, p: Ocid, seen: Option<Ocid>, x: Ocid, y: Ocid)
    requires Safe(s, t, p, seen) && Consistent(t)
    requires x in AllocatedSince(s, t) - FailedSince(s, t) && y in AllocatedSince(s, t) - FailedSince(s, t)
    ensures Bound(t, p, x) && x == y
  {
    assert x in t && x !in s && y in t && y !in s;
    assert Live(t[x].state) && Live(t[y].state);
  }

  /** Blind re-sends never leak a second address: every allocation but one was terminated by
      the cloud itself, so when the cloud terminates none, at most one took effect. */
  lemma {:induction false} AtMostOneAllocation(s: State, t: State, p: Ocid, seen: Option<Ocid>)
    requires Safe(s, t, p, seen) && Consistent(t)
    ensures |AllocatedSince(s, t)| <= 1 + |FailedSince(s, t)|
  {
    var all, failed := AllocatedSince(s, t), FailedSince(s, t);
    forall x, y | x in all - failed && y in all - failed
      ensures x == y
    {
      SurvivorIsUnique(s, t, p, seen, x, y);
    }
    AtMostOneMore(all, failed);
  }

  lemma {:induction false} AtMostOneMore(all: set<Ocid>, part: set<Ocid>)
    requires forall x, y | x in all - part && y in all - part :: x == y
    ensures |all| <= 1 + |part|
  {
    AtMostOne(all - part);
    assert all == (all - part) + (all * part) && part == (part - all) + (all * part);
  }

  lemma {:induction false} AtMostOneRelease(s: State, t: State, p: Ocid, seen: Option<Ocid>)
    requires Safe(s, t, p, seen)
    ensures ReleasedSince(s, t) <= (if seen.Some? then {seen.value} else {})
    ensures |ReleasedSince(s, t)| <= 1
  {
    var r := ReleasedSince(s, t);
    assert forall y | y in r :: seen == Some(y);
    AtMostOne(r);
  }

  /** Other private IPs keep exactly what they carried, up to the cloud's own moves. */
  lemma {:induction false} OthersUntouched(s: State, t: State, p: Ocid, seen: Option<Ocid>, q: Ocid)
    requires Safe(s, t, p, seen) && q != p
    requires seen.Some? && seen.value in s ==> s[seen.value].privateIp == p
    ensures forall y | y in t && t[y].privateIp == q :: y in s && Moves(s[y].state, t[y].state)
  {
  }
}
