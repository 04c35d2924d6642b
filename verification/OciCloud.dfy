/** The Oracle cloud as the rotation client meets it: a table of public IPs that
    changes on its own between requests, and answers that may be refused, late or
    lost. The cloud is adversarial within `Evolves`, `CanTake` and `Honest`. */
module OciCloud {
  type Ocid = string

  datatype Lifetime = Ephemeral | Reserved

  /** `Released` and `Failed` are both shown to clients as TERMINATED: the first follows
      a delete, the second is the cloud giving up on an address before it attached. */
  datatype Lifecycle = Assigning | Assigned | Detaching | Released | Failed

  datatype PublicIp = PublicIp(address: string, lifetime: Lifetime, state: Lifecycle, privateIp: Ocid)

  type State = map<Ocid, PublicIp>

  predicate Live(l: Lifecycle) {
    l.Assigning? || l.Assigned? || l.Detaching?
  }

  predicate Bound(s: State, p: Ocid, x: Ocid) {
    x in s && s[x].privateIp == p && Live(s[x].state)
  }

  predicate Free(s: State, p: Ocid) {
    forall x | x in s :: !Bound(s, p, x)
  }

  /** A private IP carries at most one public IP, and no public IP has the empty id. */
  predicate Consistent(s: State) {
    && "" !in s
    && (forall x, y | x in s && y in s && Live(s[x].state) && Live(s[y].state) && s[x].privateIp == s[y].privateIp ::
        x == y)
  }

  predicate Moves(a: Lifecycle, b: Lifecycle) {
    || a == b
    || (a.Assigning? && (b.Assigned? || b.Failed?))
    || (a.Detaching? && b.Released?)
  }

  /** What the cloud may do unprompted: finish an assignment, give one up, complete a detach. */
  predicate Evolves(s: State, t: State) {
    && t.Keys == s.Keys
    && (forall x | x in s :: t[x] == s[x].(state := t[x].state) && Moves(s[x].state, t[x].state))
  }

  // ---------------------------------------------------------------- requests

  datatype Instance = Instance(id: Ocid, compartment: Ocid, displayName: string)
  datatype Attachment = Attachment(vnic: Ocid, attached: bool)
  datatype PrivateIp = PrivateIp(id: Ocid, compartment: Ocid, isPrimary: bool)

  /** The part of a tenancy a rotation only reads. */
  datatype Topology = Topology(
    instances: map<Ocid, Instance>,
    attachments: map<Ocid, seq<Attachment>>,
    primaryVnics: map<Ocid, bool>,
    privateIps: map<Ocid, seq<PrivateIp>>)

  datatype Request =
    | GetInstance(instance: Ocid)
    | ListAttachments(instance: Ocid)
    | GetVnic(vnic: Ocid)
    | ListPrivateIps(vnic: Ocid)
    | GetByPrivateIp(priv: Ocid)
    | GetPublicIp(id: Ocid)
    | DeletePublicIp(id: Ocid)
    | CreatePublicIp(compartment: Ocid, priv: Ocid, name: string)

  predicate Reads(r: Request) {
    !r.DeletePublicIp? && !r.CreatePublicIp?
  }

  datatype Body =
    | Empty                               // a 2xx with no body leaves the caller's record zeroed
    | InstanceBody(instance: Instance)
    | AttachmentsBody(attachments: seq<Attachment>)
    | VnicBody(isPrimary: bool)
    | PrivateIpsBody(privateIps: seq<PrivateIp>)
    | PublicIpBody(id: Ocid, ip: PublicIp)

  /** `Lost` is every failure that is not an API error: a broken connection, a reply that
      never came, or a 2xx whose body does not decode. The request may still have been applied. */
  datatype Reply = Ok(body: Body) | ApiError(status: int) | Lost

  datatype Effect = Nothing | Release(id: Ocid) | Allocate(id: Ocid, priv: Ocid, address: string)

  function Apply(s: State, e: Effect): State
    requires e.Release? ==> e.id in s
  {
    match e
    case Nothing => s
    case Release(x) => s[x := s[x].(state := Detaching)]
    case Allocate(x, p, a) => s[x := PublicIp(a, Ephemeral, Assigning, p)]
  }

  predicate Releasable(s: State, x: Ocid) {
    x in s && (s[x].state.Assigning? || s[x].state.Assigned?)
  }

  /** Which effects a request can have: a delete releases its own address, and a create
      allocates only on a private IP that carries nothing. */
  predicate CanTake(s: State, r: Request, e: Effect) {
    match e
    case Nothing => true
    case Release(x) => r == DeletePublicIp(x) && Releasable(s, x)
    case Allocate(x, p, _) => r.CreatePublicIp? && r.priv == p && Free(s, p) && x !in s && x != ""
  }

  /** Which replies are honest for a request met in state `s` that had effect `e`. A reply
      below 500 says the request was not applied; a 404 for a private IP says it is bare. */
  predicate Honest(topo: Topology, s: State, r: Request, e: Effect, reply: Reply)
    requires CanTake(s, r, e)
  {
    match reply
    case Lost => true
    case ApiError(status) =>
      && (status < 500 ==> e.Nothing?)
      && (r.GetByPrivateIp? && status == 404 ==> Free(s, r.priv))
    case Ok(body) =>
      match r
      case GetInstance(i) => i in topo.instances && body == InstanceBody(topo.instances[i])
      case ListAttachments(i) => i in topo.attachments && body == AttachmentsBody(topo.attachments[i])
      case GetVnic(v) => v in topo.primaryVnics && body == VnicBody(topo.primaryVnics[v])
      case ListPrivateIps(v) => v in topo.privateIps && body == PrivateIpsBody(topo.privateIps[v])
      case GetByPrivateIp(p) =>
        body.Empty? || (body.PublicIpBody? && Bound(s, p, body.id) && body.ip == s[body.id])
      case GetPublicIp(x) => body.Empty? || (x in s && body == PublicIpBody(x, s[x]))
      case DeletePublicIp(x) => e.Release? || !Releasable(s, x)
      case CreatePublicIp(_, _, _) =>
        e.Allocate? && (body.Empty? || body == PublicIpBody(e.id, Apply(s, e)[e.id]))
  }

  /** One request: the state it was met in, what it did, and what was answered. */
  datatype Event = Event(at: State, req: Request, eff: Effect, reply: Reply)

  predicate Served(topo: Topology, e: Event) {
    CanTake(e.at, e.req, e.eff) && Honest(topo, e.at, e.req, e.eff, e.reply)
  }

  /** `tr` leads from `s` to `t`, the cloud moving on its own before, between and after requests. */
  predicate Run(topo: Topology, s: State, tr: seq<Event>, t: State)
    decreases |tr|
  {
    if tr == [] then Evolves(s, t)
    else Evolves(s, tr[0].at) && Served(topo, tr[0]) && Run(topo, Apply(tr[0].at, tr[0].eff), tr[1..], t)
  }

  lemma {:induction false} EvolvesTransitive(a: State, b: State, c: State)
    requires Evolves(a, b) && Evolves(b, c)
    ensures Evolves(a, c)
  {
  }

  lemma {:induction false} RunEvolves(topo: Topology, s: State, tr: seq<Event>, t: State, u: State)
    requires Run(topo, s, tr, t) && Evolves(t, u)
    ensures Run(topo, s, tr, u)
    decreases |tr|
  {
    if tr == [] {
      EvolvesTransitive(s, t, u);
    } else {
      RunEvolves(topo, Apply(tr[0].at, tr[0].eff), tr[1..], t, u);
    }
  }

  lemma {:induction false} EvolvesRun(topo: Topology, r: State, s: State, tr: seq<Event>, t: State)
    requires Evolves(r, s) && Run(topo, s, tr, t)
    ensures Run(topo, r, tr, t)
  {
    if tr == [] {
      EvolvesTransitive(r, s, t);
    } else {
      EvolvesTransitive(r, s, tr[0].at);
    }
  }

  lemma {:induction false} RunConcat(topo: Topology, s: State, a: seq<Event>, t: State, b: seq<Event>, u: State)
    requires Run(topo, s, a, t) && Run(topo, t, b, u)
    ensures Run(topo, s, a + b, u)
    decreases |a|
  {
    if a == [] {
      assert a + b == b;
      EvolvesRun(topo, s, t, b, u);
    } else {
      assert (a + b)[0] == a[0] && (a + b)[1..] == a[1..] + b;
      RunConcat(topo, Apply(a[0].at, a[0].eff), a[1..], t, b, u);
    }
  }

  lemma {:induction false} EvolvesConsistent(s: State, t: State)
    requires Consistent(s) && Evolves(s, t)
    ensures Consistent(t)
  {
  }

  lemma {:induction false} ApplyConsistent(s: State, r: Request, e: Effect)
    requires Consistent(s) && CanTake(s, r, e)
    ensures Consistent(Apply(s, e))
  {
  }

  /** The exclusivity of a private IP holds in every reachable state of the cloud. */
  lemma {:induction false} RunConsistent(topo: Topology, s: State, tr: seq<Event>, t: State)
    requires Consistent(s) && Run(topo, s, tr, t)
    ensures Consistent(t)
    decreases |tr|
  {
    if tr == [] {
      EvolvesConsistent(s, t);
    } else {
      EvolvesConsistent(s, tr[0].at);
      ApplyConsistent(tr[0].at, tr[0].req, tr[0].eff);
      RunConsistent(topo, Apply(tr[0].at, tr[0].eff), tr[1..], t);
    }
  }

  // ---------------------------------------------------------------- the running cloud

  /** The live cloud, its clock and the caller's cancellation flag. Every choice it makes
      is arbitrary within the relations above. */
  class Cloud {
    const topo: Topology
    var st: State
    var now: int
    var cancelled: bool
    ghost var trace: seq<Event>
    ghost var slept: int

    constructor (topo: Topology, st: State, now: int)
      requires Consistent(st)
      ensures Valid()
      ensures this.topo == topo && this.st == st && this.now == now && trace == [] && slept == 0 && !cancelled
    {
      this.topo, this.st, this.now, this.cancelled := topo, st, now, false;
      this.trace, this.slept := [], 0;
    }

    ghost predicate Valid()
      reads this
    {
      Consistent(st)
    }

    /** Time passes: the clock moves on, and cancellation may arrive but is never withdrawn. */
    twostate predicate Later()
      reads this
    {
      old(now) <= now && (old(cancelled) ==> cancelled)
    }

    method Drift()
      requires Valid()
      modifies this
      ensures Valid() && Later() && Evolves(old(st), st)
      ensures trace == old(trace) && slept == old(slept)
    {
      var t: State := *;
      if Evolves(st, t) {
        EvolvesConsistent(st, t);
        st := t;
      }
      var d: int := *;
      if d > 0 {
        now := now + d;
      }
      var c: bool := *;
      cancelled := cancelled || c;
    }

    /** One HTTP exchange. */
    method Send(req: Request) returns (reply: Reply)
      requires Valid()
      modifies this
      ensures Valid() && Later() && slept == old(slept)
      ensures |trace| == |old(trace)| + 1 && trace[..|old(trace)|] == old(trace)
      ensures var e := trace[|old(trace)|];
              && e.req == req && e.reply == reply
              && Evolves(old(st), e.at) && Served(topo, e) && st == Apply(e.at, e.eff)
    {
      Drift();
      var eff: Effect := *;
      reply := *;
      ghost var at := st;
      if !CanTake(st, req, eff) {
        eff := Nothing;
      }
      if !Honest(topo, st, req, eff, reply) {
        reply := Lost;
      }
      ApplyConsistent(st, req, eff);
      st := Apply(st, eff);
      trace := trace + [Event(at, req, eff, reply)];
    }

    /** Waits for `d`, or less if the context ends first. */
    method Wait(d: int) returns (done: bool)
      requires Valid()
      modifies this
      ensures Valid() && Later() && Evolves(old(st), st)
      ensures trace == old(trace)
      ensures done ==> cancelled
      ensures !done ==> now >= old(now) + d
      ensures slept == old(slept) + d
    {
      Drift();
      done := *;
      if !cancelled {
        done := false;
      }
      if !done && d > 0 {
        now := now + d;
      }
      slept := slept + d;
    }
  }
}
