/** Rotations of one instance in a row, as a rotator asks for them: what a whole chain of them
    does to the cloud, however each of them went. */
module RotationHistory {
  import opened Common
  import opened OciCloud
  import opened RotationSafety
  import opened Oracle

  /** `made` leads from `s` to `t`, the cloud moving on its own before, between and after. */
  ghost predicate Chain(topo: Topology, instance: Ocid, s: State, made: seq<Rotation>, t: State)
    decreases |made|
  {
    if made == [] then Evolves(s, t)
    else
      var c := made[|made| - 1];
      Chain(topo, instance, s, made[..|made| - 1], c.before) && c.instance == instance && Performed(topo, c)
        && Evolves(c.after, t)
  }

  /** Everything the chain sent, in order. */
  function SentBy(made: seq<Rotation>): seq<Event> {
    if made == [] then [] else SentBy(made[..|made| - 1]) + made[|made| - 1].sent
  }

  /** The first address text a rotation of the chain found on the target. */
  function FirstOld(made: seq<Rotation>): string {
    if made == [] then "" else
      var earlier := FirstOld(made[..|made| - 1]);
      if earlier != "" then earlier else made[|made| - 1].oldIP
  }

  predicate AllSucceeded(made: seq<Rotation>) {
    forall i | 0 <= i < |made| :: made[i].err.None?
  }

  lemma {:induction false} ChainEvolves(topo: Topology, instance: Ocid, s: State, made: seq<Rotation>, t: State,
                                        u: State)
    requires Chain(topo, instance, s, made, t) && Evolves(t, u)
    ensures Chain(topo, instance, s, made, u)
  {
    EvolvesTransitive(if made == [] then s else made[|made| - 1].after, t, u);
  }

  lemma {:induction false} ChainGrows(topo: Topology, instance: Ocid, s: State, made: seq<Rotation>, c: Rotation,
                                      t: State)
    requires Chain(topo, instance, s, made, c.before) && c.instance == instance && Performed(topo, c)
    requires Evolves(c.after, t)
    ensures Chain(topo, instance, s, made + [c], t)
    ensures SentBy(made + [c]) == SentBy(made) + c.sent
    ensures FirstOld(made + [c]) == if FirstOld(made) != "" then FirstOld(made) else c.oldIP
  {
    assert (made + [c])[..|made|] == made;
  }

  /** The chain up to its `i`-th rotation, and that rotation. */
  lemma {:induction false} ChainAt(topo: Topology, instance: Ocid, s: State, made: seq<Rotation>, t: State, i: nat)
    requires Chain(topo, instance, s, made, t) && i < |made|
    ensures Chain(topo, instance, s, made[..i], made[i].before) && made[i].instance == instance
    ensures Performed(topo, made[i])
    ensures Evolves(made[i].after, if i + 1 < |made| then made[i + 1].before else t)
  {
    hide Performed;
    var init := made[..|made| - 1];
    if i < |made| - 1 {
      ChainAt(topo, instance, s, init, made[|made| - 1].before, i);
      assert init[..i] == made[..i];
    }
  }

  // ---------------------------------------------------------------- what a chain leaves behind

  /** Addresses of the start are as they were but for their state; the others are on the target. */
  ghost predicate Confines(s: State, t: State, p: Ocid) {
    && s.Keys <= t.Keys
    && (forall y | y in s :: t[y] == s[y].(state := t[y].state))
    && (forall y | y in t && y !in s :: t[y].privateIp == p && t[y].lifetime.Ephemeral?)
  }

  lemma {:induction false} ChainConfines(topo: Topology, instance: Ocid, s: State, made: seq<Rotation>, t: State)
    requires Chain(topo, instance, s, made, t) && Consistent(s)
    ensures Confines(s, t, TargetIp(topo, instance)) && Consistent(t)
  {
    if made == [] {
      EvolvesConsistent(s, t);
    } else {
      var c := made[|made| - 1];
      ChainConfines(topo, instance, s, made[..|made| - 1], c.before);
      EvolvesConsistent(c.after, t);
    }
  }

  /** The addresses allocated since `s` that are neither failed nor released. */
  ghost function LiveSince(s: State, t: State): set<Ocid> {
    set y | y in t && y !in s && Live(t[y].state)
  }

  /** Whatever a chain went through, at most one address it allocated is still live. */
  lemma {:induction false} AtMostOneLive(topo: Topology, instance: Ocid, s: State, made: seq<Rotation>, t: State)
    requires Chain(topo, instance, s, made, t) && Consistent(s)
    ensures |LiveSince(s, t)| <= 1
  {
    ChainConfines(topo, instance, s, made, t);
    forall x, y | x in LiveSince(s, t) && y in LiveSince(s, t)
      ensures x == y
    {
      assert t[x].privateIp == t[y].privateIp;
    }
    AtMostOne(LiveSince(s, t));
  }

  /** After a chain whose last rotation succeeded, its address is the only one left: every
      address drawn and discarded before it has been let go, and whatever the target carried. */
  lemma {:induction false} OnlyTheLastIsLive(topo: Topology, instance: Ocid, s: State, made: seq<Rotation>, t: State)
    requires Chain(topo, instance, s, made, t) && Consistent(s) && made != [] && made[|made| - 1].err.None?
    ensures LiveSince(s, t) == {made[|made| - 1].drawn}
    ensures forall y | Bound(t, TargetIp(topo, instance), y) :: y == made[|made| - 1].drawn
    ensures HasAddress(t, made[|made| - 1].drawn, made[|made| - 1].newIP)
  {
    var c := made[|made| - 1];
    ChainConfines(topo, instance, s, made, t);
    ChainConfines(topo, instance, s, made[..|made| - 1], c.before);
    assert Bound(t, TargetIp(topo, instance), c.drawn) && c.drawn !in s;
  }

  /** A success fled the address that was attached to the target when it began. */
  lemma {:induction false} Flees(topo: Topology, c: Rotation, y: Ocid, text: string)
    requires Performed(topo, c) && c.err.None?
    requires Bound(c.before, TargetIp(topo, c.instance), y) && HasAddress(c.before, y, text)
    ensures c.seen == Some(y) && c.oldIP == text && c.before[y].lifetime.Ephemeral?
  {
    assert !Live(c.after[y].state);
  }

  /** A link of a chain: one performed rotation of the instance. */
  ghost predicate Link(topo: Topology, instance: Ocid, c: Rotation) {
    c.instance == instance && Performed(topo, c)
  }

  lemma {:induction false} ChainLinks(topo: Topology, instance: Ocid, s: State, made: seq<Rotation>, t: State, i: nat)
    requires Chain(topo, instance, s, made, t) && i < |made|
    ensures Link(topo, instance, made[i]) && Evolves(made[i].after, if i + 1 < |made| then made[i + 1].before else t)
  {
    hide Performed;
    ChainAt(topo, instance, s, made, t, i);
  }

  lemma {:induction false} NextFlees(topo: Topology, instance: Ocid, c: Rotation, d: Rotation)
    requires Link(topo, instance, c) && Link(topo, instance, d) && Evolves(c.after, d.before) && c.err.None?
    requires d.err.None?
    ensures d.seen == Some(c.drawn) && d.oldIP == c.newIP
  {
    Flees(topo, d, c.drawn, c.newIP);
  }

  /** Each success in a row fled exactly the address the one before it had drawn. */
  lemma {:induction false} EachFleesTheLast(topo: Topology, instance: Ocid, s: State, made: seq<Rotation>, t: State,
                                            i: nat)
    requires Chain(topo, instance, s, made, t)
    requires i + 1 < |made| && made[i].err.None? && made[i + 1].err.None?
    ensures made[i + 1].seen == Some(made[i].drawn) && made[i + 1].oldIP == made[i].newIP
  {
    hide Performed;
    ChainLinks(topo, instance, s, made, t, i);
    ChainLinks(topo, instance, s, made, t, i + 1);
    NextFlees(topo, instance, made[i], made[i + 1]);
  }

  lemma {:induction false} AttachedStays(s: State, t: State, p: Ocid, y: Ocid)
    requires Evolves(s, t) && Bound(s, p, y) && s[y].state.Assigned?
    ensures Bound(t, p, y) && t[y] == s[y]
  {
  }

  /** What a rotation says it fled: the address attached to the target at the start; or, if that
      was none it could name, the first address it drew itself, when it drew again. */
  lemma {:induction false} FirstOldMeans(topo: Topology, instance: Ocid, s: State, made: seq<Rotation>, t: State)
    requires Chain(topo, instance, s, made, t) && made != [] && AllSucceeded(made)
    ensures FirstOld(made) == if made[0].oldIP != "" then made[0].oldIP else if |made| > 1 then made[0].newIP else ""
  {
    hide Performed;
    if |made| > 1 {
      var init, c := made[..|made| - 1], made[|made| - 1];
      FirstOldMeans(topo, instance, s, init, c.before);
      EachFleesTheLast(topo, instance, s, made, t, |made| - 2);
      assert |init| == 1 ==> init[0] == made[|made| - 2];
      HasNewIP(topo, instance, s, made, t, 0);
    }
  }

  lemma {:induction false} HasNewIP(topo: Topology, instance: Ocid, s: State, made: seq<Rotation>, t: State, i: nat)
    requires Chain(topo, instance, s, made, t) && i < |made| && made[i].err.None?
    ensures made[i].newIP != ""
  {
    ChainAt(topo, instance, s, made, t, i);
  }

  lemma {:induction false} FirstFlees(topo: Topology, instance: Ocid, s: State, made: seq<Rotation>, t: State, y: Ocid)
    requires Chain(topo, instance, s, made, t) && made != [] && made[0].err.None?
    requires Bound(s, TargetIp(topo, instance), y) && s[y].state.Assigned?
    ensures made[0].seen == Some(y) && made[0].oldIP == s[y].address && s[y].lifetime.Ephemeral?
  {
    ChainAt(topo, instance, s, made, t, 0);
    assert Chain(topo, instance, s, [], made[0].before);
    AttachedStays(s, made[0].before, TargetIp(topo, instance), y);
    Flees(topo, made[0], y, s[y].address);
  }

  /** An address attached to the target when a chain of successes began is the one it reports. */
  lemma {:induction false} FledIsReported(topo: Topology, instance: Ocid, s: State, made: seq<Rotation>, t: State,
                                          y: Ocid)
    requires Chain(topo, instance, s, made, t) && made != [] && AllSucceeded(made)
    requires Bound(s, TargetIp(topo, instance), y) && s[y].state.Assigned? && s[y].address != ""
    ensures FirstOld(made) == s[y].address && s[y].lifetime.Ephemeral? && made[0].seen == Some(y)
  {
    FirstOldMeans(topo, instance, s, made, t);
    FirstFlees(topo, instance, s, made, t, y);
  }

  lemma {:induction false} LetGoBefore(topo: Topology, c: Rotation, t: State, y: Ocid)
    requires Performed(topo, c) && Evolves(c.after, t) && y in t && Gone(t[y].state) && c.seen != Some(y)
    ensures y in c.before && Gone(c.before[y].state)
  {
    assert Gone(c.after[y].state);
  }

  lemma {:induction false} GoneWasGone(s: State, t: State, y: Ocid)
    requires Evolves(s, t) && y in t && Gone(t[y].state)
    ensures y in s && Gone(s[y].state)
  {
  }

  lemma {:induction false} LetGoWasSeen(topo: Topology, instance: Ocid, s: State, made: seq<Rotation>, t: State,
                                        y: Ocid)
    returns (i: nat)
    requires Chain(topo, instance, s, made, t) && y in t && Gone(t[y].state) && (y in s ==> !Gone(s[y].state))
    ensures i < |made| && made[i].seen == Some(y)
  {
    if made == [] {
      GoneWasGone(s, t, y);
      assert false;
    } else if made[|made| - 1].seen == Some(y) {
      i := |made| - 1;
    } else {
      LetGoBefore(topo, made[|made| - 1], t, y);
      i := LetGoWasSeen(topo, instance, s, made[..|made| - 1], made[|made| - 1].before, y);
    }
  }

  /** What a chain lets go is among what its rotations saw on the target: one address each. */
  lemma {:induction false} ReleasesWhatWasSeen(topo: Topology, instance: Ocid, s: State, made: seq<Rotation>, t: State,
                                               y: Ocid)
    requires Chain(topo, instance, s, made, t) && y in ReleasedSince(s, t)
    ensures exists i :: 0 <= i < |made| && made[i].seen == Some(y)
  {
    var i := LetGoWasSeen(topo, instance, s, made, t, y);
  }

  /** A private IP that is not the target keeps what it carries. */
  lemma {:induction false} OthersKeepTheirs(topo: Topology, instance: Ocid, s: State, made: seq<Rotation>, t: State,
                                            q: Ocid, y: Ocid)
    requires Chain(topo, instance, s, made, t) && Consistent(s)
    requires q != TargetIp(topo, instance) && Bound(s, q, y) && s[y].state.Assigned?
    ensures Bound(t, q, y) && t[y] == s[y]
  {
    if made != [] {
      var c := made[|made| - 1];
      OthersKeepTheirs(topo, instance, s, made[..|made| - 1], c.before, q, y);
      assert c.seen != Some(y);
    }
  }

  // ---------------------------------------------------------------- a rotation that can always happen

  /** An ephemeral address is attached to the instance's private IP, under this text. */
  ghost predicate Occupied(topo: Topology, instance: Ocid, s: State, y: Ocid, text: string) {
    && TargetOf(topo, instance).Some? && Consistent(s) && Bound(s, TargetIp(topo, instance), y)
    && s[y].state.Assigned? && s[y].lifetime.Ephemeral? && s[y].address == text
  }

  /** The cloud with `y` let go. */
  function Without(s: State, y: Ocid): State
    requires y in s
  {
    s[y := s[y].(state := Released)]
  }

  /** Finding `y` on the target, deleting it, seeing it gone, creating `x` with the text `text`,
      and seeing that attached. */
  function Exchange(topo: Topology, instance: Ocid, s: State, y: Ocid, x: Ocid, text: string): seq<Event>
    requires TargetOf(topo, instance).Some? && y in s
  {
    var t := TargetOf(topo, instance).value;
    var p, bare := t.1.id, Without(s, y);
    var made := PublicIp(text, Ephemeral, Assigning, p);
    var attached := made.(state := Assigned);
    [Event(s, GetByPrivateIp(p), Nothing, Ok(PublicIpBody(y, s[y]))),
     Event(s, DeletePublicIp(y), Release(y), Ok(Empty)),
     Event(bare, GetByPrivateIp(p), Nothing, ApiError(404)),
     Event(bare, CreateRequest(t.0, t.1), Allocate(x, p, text), Ok(PublicIpBody(x, made))),
     Event(bare[x := attached], GetPublicIp(x), Nothing, Ok(PublicIpBody(x, attached)))]
  }

  /** The rotation that does so, once it has found the target in the directory. */
  function Replacement(topo: Topology, instance: Ocid, s: State, y: Ocid, x: Ocid, text: string): Rotation
    requires TargetOf(topo, instance).Some? && y in s
  {
    var attached := PublicIp(text, Ephemeral, Assigned, TargetIp(topo, instance));
    Rotation(instance, s, Exchange(topo, instance, s, y, x, text), Without(s, y)[x := attached],
             Some(y), x, s[y].address, text, None)
  }

  lemma {:induction false} RunFrom(topo: Topology, s: State, tr: seq<Event>, i: nat, t: State)
    requires i < |tr| && Evolves(s, tr[i].at) && Served(topo, tr[i])
    requires Run(topo, Apply(tr[i].at, tr[i].eff), tr[i + 1..], t)
    ensures Run(topo, s, tr[i..], t)
  {
    assert tr[i..][1..] == tr[i + 1..];
  }

  /** Each request of the exchange can be answered so. */
  lemma {:induction false} ExchangeIsServed(topo: Topology, instance: Ocid, s: State, y: Ocid, x: Ocid, text: string)
    requires y in s && Occupied(topo, instance, s, y, s[y].address) && x !in s && x != ""
    ensures forall i | 0 <= i < 5 :: Served(topo, Exchange(topo, instance, s, y, x, text)[i])
  {
    assert Free(Without(s, y), TargetIp(topo, instance));
  }

  lemma {:induction false} StandsStill(s: State)
    ensures Evolves(s, s)
  {
  }

  lemma {:induction false} LetsGo(s: State, y: Ocid)
    requires y in s
    ensures Evolves(Apply(s, Release(y)), Without(s, y))
  {
  }

  lemma {:induction false} Attaches(s: State, x: Ocid, made: PublicIp)
    requires made.state.Assigning?
    ensures Evolves(s[x := made], s[x := made.(state := Assigned)])
  {
  }

  /** And each can be met in the state the one before it left. */
  lemma {:induction false} ExchangeGoesOn(topo: Topology, instance: Ocid, s: State, y: Ocid, x: Ocid, text: string)
    requires y in s && Occupied(topo, instance, s, y, s[y].address) && x !in s && x != ""
    ensures var c := Replacement(topo, instance, s, y, x, text);
            var sent := c.sent;
            && Evolves(s, sent[0].at)
            && (forall i | 0 <= i < 4 :: Evolves(Apply(sent[i].at, sent[i].eff), sent[i + 1].at))
            && Evolves(Apply(sent[4].at, sent[4].eff), c.after)
  {
    hide Evolves;
    var bare := Without(s, y);
    StandsStill(s);
    StandsStill(bare);
    StandsStill(Replacement(topo, instance, s, y, x, text).after);
    LetsGo(s, y);
    Attaches(bare, x, PublicIp(text, Ephemeral, Assigning, TargetIp(topo, instance)));
  }

  lemma {:induction false} ExchangeRuns(topo: Topology, instance: Ocid, s: State, y: Ocid, x: Ocid, text: string)
    requires y in s && Occupied(topo, instance, s, y, s[y].address) && x !in s && x != ""
    ensures var c := Replacement(topo, instance, s, y, x, text);
            Run(topo, c.before, c.sent, c.after) && Consistent(c.after)
  {
    hide Served, Evolves;
    var c := Replacement(topo, instance, s, y, x, text);
    var sent := c.sent;
    ExchangeIsServed(topo, instance, s, y, x, text);
    ExchangeGoesOn(topo, instance, s, y, x, text);
    assert Run(topo, Apply(sent[4].at, sent[4].eff), sent[5..], c.after);
    hide Run, Apply, Consistent;
    RunFrom(topo, Apply(sent[3].at, sent[3].eff), sent, 4, c.after);
    RunFrom(topo, Apply(sent[2].at, sent[2].eff), sent, 3, c.after);
    RunFrom(topo, Apply(sent[1].at, sent[1].eff), sent, 2, c.after);
    RunFrom(topo, Apply(sent[0].at, sent[0].eff), sent, 1, c.after);
    RunFrom(topo, s, sent, 0, c.after);
    assert sent[0..] == sent;
    RunConsistent(topo, s, sent, c.after);
  }

  lemma {:induction false} ExchangeFollows(topo: Topology, instance: Ocid, s: State, y: Ocid, x: Ocid, text: string)
    requires TargetOf(topo, instance).Some? && y in s
    ensures Follows(topo, instance, Exchange(topo, instance, s, y, x, text), Some(y))
  {
    var sent := Exchange(topo, instance, s, y, x, text);
    assert sent[1].req == DeletePublicIp(y);
    assert Deleted(sent, 2, y);
    assert sent[2].req == GetByPrivateIp(TargetIp(topo, instance)) && sent[2].reply == ApiError(404);
    assert ObservedBare(sent, 3, TargetIp(topo, instance), Some(y));
  }

  /** Any ephemeral address attached to a target can be rotated away for any other text, its own
      included. */
  lemma {:induction false} AnyReplacementCanHappen(topo: Topology, instance: Ocid, s: State, y: Ocid, x: Ocid,
                                                   text: string)
    requires y in s && Occupied(topo, instance, s, y, s[y].address) && x !in s && x != "" && text != ""
    ensures var c := Replacement(topo, instance, s, y, x, text);
            Performed(topo, c) && Occupied(topo, instance, c.after, x, text)
  {
    ExchangeRuns(topo, instance, s, y, x, text);
    ExchangeFollows(topo, instance, s, y, x, text);
    ProtocolIsSafe(topo, Replacement(topo, instance, s, y, x, text));
  }
}
