/** Rotation of an instance's ephemeral public IP: find it, release it, wait until it is
    gone, allocate another, wait until that one is attached. */
module Oracle {
  import opened Common
  import opened OciCloud
  import opened OciClient
  import opened RotationSafety

  datatype Error =
    | CallFailed(result: CallResult)
    | NoPrimaryVnic
    | NoPrimaryPrivateIp
    | ReservedIp
    | ReleaseTimedOut
    | AssignTimedOut
    | TerminatedEarly
    | Cancelled

  /** The client's copy of a public IP; all zero when the reply had no body. */
  datatype Record = Record(id: Ocid, address: string, isReserved: bool, isAssigned: bool, isTerminated: bool)

  function RecordOf(body: Body): Record {
    match body
    case PublicIpBody(id, ip) =>
      Record(id, ip.address, ip.lifetime.Reserved?, ip.state.Assigned?, ip.state.Released? || ip.state.Failed?)
    case _ => Record("", "", false, false, false)
  }

  /** `pub` is a true copy of the address bound to `p`, or the zero record. */
  ghost predicate Reflects(s: State, p: Ocid, pub: Record) {
    if pub.id == "" then
      pub == RecordOf(Empty)
    else
      Bound(s, p, pub.id) && s[pub.id].address == pub.address && s[pub.id].lifetime.Reserved? == pub.isReserved
  }

  /** A created record names an address the starting state did not have, or nothing at all. */
  ghost predicate IsNew(r: Record, start: State, s: State, p: Ocid) {
    r.id != "" ==> r.id !in start && r.id in s && s[r.id].privateIp == p
  }

  ghost predicate HasAddress(s: State, x: Ocid, address: string) {
    x in s && s[x].state.Assigned? && s[x].address == address
  }

  // ---------------------------------------------------------------- the target, by the directory

  /** The first attached VNIC that is primary, reading attachments in order. */
  function PrimaryVnic(topo: Topology, atts: seq<Attachment>): Option<Ocid> {
    if atts == [] then None
    else if !atts[0].attached || atts[0].vnic == "" then PrimaryVnic(topo, atts[1..])
    else if atts[0].vnic !in topo.primaryVnics then None
    else if topo.primaryVnics[atts[0].vnic] then Some(atts[0].vnic)
    else PrimaryVnic(topo, atts[1..])
  }

  /** How many VNICs the directory lists for the instance. */
  function VnicsOf(topo: Topology, instance: Ocid): nat {
    if instance !in topo.instances then 0
    else
      var id := topo.instances[instance].id;
      if id in topo.attachments then |topo.attachments[id]| else 0
  }

  function PrimaryOf(ips: seq<PrivateIp>): Option<PrivateIp> {
    if ips == [] then None
    else if ips[0].isPrimary then Some(ips[0])
    else PrimaryOf(ips[1..])
  }

  /** The instance's record and its primary VNIC, if the directory has them. */
  function VnicOf(topo: Topology, instance: Ocid): Option<(Instance, Ocid)> {
    if instance !in topo.instances then None
    else
      var inst := topo.instances[instance];
      if inst.id !in topo.attachments then None
      else
        match PrimaryVnic(topo, topo.attachments[inst.id])
        case None => None
        case Some(v) => Some((inst, v))
  }

  /** The private IP a rotation of `instance` is about, if the directory has one. */
  function TargetOf(topo: Topology, instance: Ocid): Option<(Instance, PrivateIp)> {
    match VnicOf(topo, instance)
    case None => None
    case Some(v) =>
      if v.1 !in topo.privateIps then None
      else
        match PrimaryOf(topo.privateIps[v.1])
        case None => None
        case Some(ip) => Some((v.0, ip))
  }

  function TargetIp(topo: Topology, instance: Ocid): Ocid {
    match TargetOf(topo, instance)
    case None => ""
    case Some(t) => t.1.id
  }

  /** The create a rotation sends: in the private IP's compartment, or its instance's. */
  function CreateRequest(inst: Instance, ip: PrivateIp): Request {
    var compartment := if ip.compartment == "" then inst.compartment else ip.compartment;
    CreatePublicIp(compartment, ip.id, "ghost-" + inst.displayName)
  }

  /** The first private IP that is primary. */
  lemma {:induction false} PrimaryIsFirst(ips: seq<PrivateIp>, ip: PrivateIp)
    ensures PrimaryOf(ips).None? <==> forall i | 0 <= i < |ips| :: !ips[i].isPrimary
    ensures PrimaryOf(ips) == Some(ip) ==>
              exists i :: 0 <= i < |ips| && ips[i] == ip && ip.isPrimary && forall k | 0 <= k < i :: !ips[k].isPrimary
  {
    if ips != [] && !ips[0].isPrimary {
      var rest := ips[1..];
      PrimaryIsFirst(rest, ip);
      assert forall i | 0 < i < |ips| :: ips[i] == rest[i - 1];
      if PrimaryOf(ips) == Some(ip) {
        var i :| 0 <= i < |rest| && rest[i] == ip && ip.isPrimary && forall k | 0 <= k < i :: !rest[k].isPrimary;
        assert ips[i + 1] == ip;
      }
    }
  }

  predicate Candidate(att: Attachment) {
    att.attached && att.vnic != ""
  }

  /** An attached VNIC that is primary, every attached one before it being known and not primary. */
  ghost predicate Primary(topo: Topology, atts: seq<Attachment>, i: nat)
    requires i < |atts|
  {
    && Candidate(atts[i]) && atts[i].vnic in topo.primaryVnics && topo.primaryVnics[atts[i].vnic]
    && (forall k | 0 <= k < i && Candidate(atts[k]) ::
          atts[k].vnic in topo.primaryVnics && !topo.primaryVnics[atts[k].vnic])
  }

  predicate Passes(topo: Topology, att: Attachment) {
    Candidate(att) ==> att.vnic in topo.primaryVnics && !topo.primaryVnics[att.vnic]
  }

  lemma {:induction false} PrimaryShifts(topo: Topology, atts: seq<Attachment>, i: nat)
    requires i + 1 < |atts| && Passes(topo, atts[0])
    ensures Primary(topo, atts, i + 1) <==> Primary(topo, atts[1..], i)
  {
    var rest := atts[1..];
    assert forall k | 0 <= k < |rest| :: rest[k] == atts[k + 1];
    assert forall k | 0 < k < |atts| :: atts[k] == rest[k - 1];
  }

  /** The search ends at the first attached primary VNIC, if all before it are known. */
  lemma {:induction false} PrimaryVnicIsFirst(topo: Topology, atts: seq<Attachment>, v: Ocid)
    ensures PrimaryVnic(topo, atts) == Some(v) <==>
              exists i :: 0 <= i < |atts| && Primary(topo, atts, i) && atts[i].vnic == v
  {
    if atts != [] && Passes(topo, atts[0]) {
      var rest := atts[1..];
      PrimaryVnicIsFirst(topo, rest, v);
      if exists i :: 0 <= i < |rest| && Primary(topo, rest, i) && rest[i].vnic == v {
        var i :| 0 <= i < |rest| && Primary(topo, rest, i) && rest[i].vnic == v;
        PrimaryShifts(topo, atts, i);
        assert Primary(topo, atts, i + 1) && atts[i + 1].vnic == v;
      }
      if exists i :: 0 <= i < |atts| && Primary(topo, atts, i) && atts[i].vnic == v {
        var i :| 0 <= i < |atts| && Primary(topo, atts, i) && atts[i].vnic == v;
        PrimaryShifts(topo, atts, i - 1);
        assert Primary(topo, rest, i - 1) && rest[i - 1].vnic == v;
      }
    } else if atts != [] {
      assert forall i | 0 < i < |atts| :: !Primary(topo, atts, i);
      assert Primary(topo, atts, 0) <==> atts[0].vnic in topo.primaryVnics;
    }
  }

  // ---------------------------------------------------------------- growing runs

  /** The requests sent since a starting point: the trace and state there, and what followed. */
  datatype Log = Log(base: seq<Event>, start: State, sent: seq<Event>)

  ghost predicate Extends(a: Log, b: Log) {
    && b.base == a.base && b.start == a.start
    && |a.sent| <= |b.sent| && (forall i | 0 <= i < |a.sent| :: b.sent[i] == a.sent[i])
  }

  /** Everything sent between `a` and `b` was `req`. */
  ghost predicate Only(a: Log, b: Log, req: Request) {
    Extends(a, b) && (forall i | |a.sent| <= i < |b.sent| :: b.sent[i].req == req)
  }

  /** Everything sent between `a` and `b` was `req`, at least `n` times and at most four times that. */
  ghost predicate Sends(a: Log, b: Log, req: Request, n: nat) {
    Only(a, b, req) && |a.sent| + n <= |b.sent| <= |a.sent| + MAX_ATTEMPTS * n
  }

  /** What was sent between `a` and `b` is client calls of `req` that returned `rs`. */
  ghost predicate Calls(a: Log, b: Log, req: Request, rs: seq<CallResult>) {
    b.base == a.base && b.start == a.start && a.sent <= b.sent && AreCalls(b.sent[|a.sent|..], req, rs)
  }

  /** No request sent between `a` and `b` was answered by a reply of this kind. */
  ghost predicate NeverSince(a: Log, b: Log, kind: Reply -> bool) {
    forall i | |a.sent| <= i < |b.sent| :: !kind(b.sent[i].reply)
  }

  lemma {:induction false} NoCalls(a: Log, req: Request)
    ensures Calls(a, a, req, [])
  {
  }

  lemma {:induction false} OneCall(a: Log, call: seq<Event>, req: Request, r: CallResult)
    requires Returned(call, req, r)
    ensures Calls(a, a.(sent := a.sent + call), req, [r])
  {
    OneMoreCall([], call, req, [], r);
    assert (a.sent + call)[|a.sent|..] == [] + call && [] + [r] == [r];
  }

  lemma {:induction false} CallsAdd(a: Log, b: Log, c: Log, req: Request, rs: seq<CallResult>, r: CallResult)
    requires Calls(a, b, req, rs) && Calls(b, c, req, [r])
    ensures Calls(a, c, req, rs + [r])
  {
    hide AreCalls, Returned;
    var call := c.sent[|b.sent|..];
    ThatCall(call, req, r);
    OneMoreCall(b.sent[|a.sent|..], call, req, rs, r);
    assert c.sent[|a.sent|..] == b.sent[|a.sent|..] + call;
  }

  /** What that says of the requests themselves. */
  lemma {:induction false} CallsMean(a: Log, b: Log, req: Request, rs: seq<CallResult>)
    requires Calls(a, b, req, rs)
    ensures Sends(a, b, req, |rs|)
  {
    hide AreCalls;
    CallsBound(b.sent[|a.sent|..], req, rs);
    assert forall i | |a.sent| <= i < |b.sent| :: b.sent[i] == b.sent[|a.sent|..][i - |a.sent|];
  }

  lemma {:induction false} OnceMore(a: Log, b: Log, c: Log, req: Request, rs: seq<CallResult>, r: CallResult)
    requires Calls(a, b, req, rs) && Calls(b, c, req, [r])
    ensures Calls(a, c, req, rs + [r]) && Sends(a, c, req, |rs| + 1)
  {
    hide Sends;
    CallsAdd(a, b, c, req, rs, r);
    CallsMean(a, c, req, rs + [r]);
  }

  /** A kind of answer that ends a call and that no call returned was never given. */
  lemma {:induction false} NeverReturned(a: Log, b: Log, req: Request, rs: seq<CallResult>, kind: Reply -> bool)
    requires Calls(a, b, req, rs) && (forall i | 0 <= i < |rs| :: rs[i].Replied? ==> !kind(rs[i].reply))
    requires forall reply :: kind(reply) ==> !Retryable(reply)
    ensures NeverSince(a, b, kind)
  {
    hide AreCalls, Retryable;
    CallsNever(b.sent[|a.sent|..], req, rs, kind);
    assert forall i | |a.sent| <= i < |b.sent| :: b.sent[i] == b.sent[|a.sent|..][i - |a.sent|];
  }

  // ---------------------------------------------------------------- what a rotation may send

  /** The protocol of one rotation: deletes name only what was seen, creates are the one
      request the target calls for, and each follows an observation that the target is bare. */
  ghost predicate Follows(topo: Topology, instance: Ocid, sent: seq<Event>, seen: Option<Ocid>) {
    && Confined(sent, TargetIp(topo, instance), seen)
    && Ordered(sent, TargetIp(topo, instance), seen)
    && (forall i | 0 <= i < |sent| && sent[i].req.CreatePublicIp? ::
          var t := TargetOf(topo, instance); t.Some? && sent[i].req == CreateRequest(t.value.0, t.value.1))
  }

  /** What a rotation took note of: an ephemeral address bound to the target when it began,
      whose text it reports, or nothing it can name. */
  ghost predicate SeenAt(s: State, p: Ocid, seen: Option<Ocid>, oldIP: string) {
    if seen.Some? && seen.value != "" then
      Bound(s, p, seen.value) && s[seen.value].lifetime.Ephemeral? && s[seen.value].address == oldIP
    else
      oldIP == ""
  }

  lemma {:induction false} NothingSeen(s: State, p: Ocid)
    ensures SeenAt(s, p, None, "")
  {
  }

  lemma {:induction false} BareThenCreates(bare: seq<Event>, sent: seq<Event>, p: Ocid, seen: Option<Ocid>)
    requires |bare| <= |sent| && (forall i | 0 <= i < |bare| :: sent[i] == bare[i])
    requires Ordered(bare, p, seen) && ObservedBare(bare, |bare|, p, seen)
    ensures Ordered(sent, p, seen)
  {
    assert sent == bare + sent[|bare|..];
    OrderedConcat(bare, sent[|bare|..], p, seen);
  }

  /** A RESERVED address attached to the target outlives any rotation, whatever its outcome. */
  lemma {:induction false} ReservedIsNeverReleased(s: State, t: State, p: Ocid, seen: Option<Ocid>, oldIP: string,
                                                   y: Ocid)
    requires Consistent(s) && Safe(s, t, p, seen) && SeenAt(s, p, seen, oldIP)
    requires Bound(s, p, y) && s[y].lifetime.Reserved? && s[y].state.Assigned?
    ensures t[y] == s[y]
  {
  }

  /** After a successful rotation nothing the target carried before is still attached, and
      what else was allocated on the way the cloud itself has terminated. */
  lemma {:induction false} OnlyTheNewAddressIsLeft(s: State, t: State, p: Ocid, seen: Option<Ocid>, drawn: Ocid)
    requires Consistent(t) && Safe(s, t, p, seen) && Bound(t, p, drawn) && drawn !in s
    ensures forall y | y in s && s[y].privateIp == p :: !Live(t[y].state)
    ensures AllocatedSince(s, t) - FailedSince(s, t) == {drawn}
    ensures forall y | Bound(t, p, y) :: y == drawn
  {
    var live := AllocatedSince(s, t) - FailedSince(s, t);
    forall y | y in live
      ensures y == drawn
    {
      SurvivorIsUnique(s, t, p, seen, y, drawn);
    }
    assert drawn in live;
  }

  /** Between `a` and `b`, deletes of `id` and looks at `p` were sent and nothing else. */
  ghost predicate Releases(a: Log, b: Log, p: Ocid, id: Ocid) {
    && Extends(a, b)
    && (forall i | |a.sent| <= i < |b.sent| ::
        b.sent[i].req == DeletePublicIp(id) || b.sent[i].req == GetByPrivateIp(p))
  }

  lemma {:induction false} DeletedThenBare(a: Log, mid: Log, b: Log, p: Ocid, id: Ocid)
    requires Only(a, mid, DeletePublicIp(id)) && |a.sent| < |mid.sent| && Only(mid, b, GetByPrivateIp(p))
    requires |mid.sent| < |b.sent|
    requires b.sent[|b.sent| - 1].reply == ApiError(404)
    ensures ObservedBare(b.sent, |b.sent|, p, Some(id))
  {
    assert b.sent[|a.sent|] == mid.sent[|a.sent|];
    assert Deleted(b.sent, |b.sent| - 1, id);
  }

  lemma {:induction false} ReleaseFollows(topo: Topology, instance: Ocid, a: Log, b: Log, p: Ocid, id: Ocid)
    requires ReadOnly(a.sent) && Releases(a, b, p, id)
    ensures Follows(topo, instance, b.sent, Some(id))
  {
    forall i | 0 <= i < |b.sent|
      ensures !b.sent[i].req.CreatePublicIp? && (b.sent[i].req.DeletePublicIp? ==> b.sent[i].req.id == id)
    {
      assert i < |a.sent| ==> b.sent[i] == a.sent[i] && Reads(a.sent[i].req);
    }
  }

  /** Between `a` and `b`, creates of `create` and reads were sent and nothing else. */
  ghost predicate Draws(a: Log, b: Log, create: Request) {
    && Extends(a, b)
    && (forall i | |a.sent| <= i < |b.sent| :: b.sent[i].req == create || Reads(b.sent[i].req))
  }

  lemma {:induction false} DrawsExtend(a: Log, b: Log, create: Request)
    requires Draws(a, b, create)
    ensures Extends(a, b) && b.base == a.base && b.start == a.start
  {
  }

  lemma {:induction false} CreatesAlone(a: Log, b: Log, create: Request)
    requires Only(a, b, create) && |a.sent| < |b.sent|
    ensures Draws(a, b, create) && Extends(a, b) && b.sent[|b.sent| - 1].req == create
  {
  }

  lemma {:induction false} CreatesAndLooks(a: Log, mid: Log, b: Log, create: Request, id: Ocid)
    requires Only(a, mid, create) && Only(mid, b, GetPublicIp(id)) && |mid.sent| < |b.sent|
    ensures Draws(a, mid, create) && Draws(a, b, create) && b.sent[|b.sent| - 1].req == GetPublicIp(id)
  {
    forall i | |a.sent| <= i < |b.sent|
      ensures b.sent[i].req == create || Reads(b.sent[i].req)
    {
      assert i < |mid.sent| ==> b.sent[i] == mid.sent[i];
    }
    assert forall i | 0 <= i < |a.sent| :: b.sent[i] == mid.sent[i] == a.sent[i];
  }

  lemma {:induction false} DrawFollows(topo: Topology, instance: Ocid, a: Log, b: Log, inst: Instance, ip: PrivateIp,
                                       seen: Option<Ocid>)
    requires TargetOf(topo, instance) == Some((inst, ip)) && Draws(a, b, CreateRequest(inst, ip))
    requires Follows(topo, instance, a.sent, seen) && ObservedBare(a.sent, |a.sent|, ip.id, seen)
    ensures Follows(topo, instance, b.sent, seen)
  {
    BareThenCreates(a.sent, b.sent, ip.id, seen);
    forall i | 0 <= i < |b.sent|
      ensures b.sent[i].req.DeletePublicIp? ==> seen == Some(b.sent[i].req.id)
      ensures b.sent[i].req.CreatePublicIp? ==> b.sent[i].req == CreateRequest(inst, ip)
    {
      assert i < |a.sent| ==> b.sent[i] == a.sent[i];
    }
  }

  lemma {:induction false} ReadingFollows(topo: Topology, instance: Ocid, sent: seq<Event>)
    requires ReadOnly(sent)
    ensures Follows(topo, instance, sent, None)
  {
    assert forall i | 0 <= i < |sent| :: Reads(sent[i].req);
  }

  // ---------------------------------------------------------------- why a rotation may fail

  /** A private IP that carries nothing. */
  predicate IsBare(reply: Reply) {
    reply == ApiError(404)
  }

  predicate IsOk(reply: Reply) {
    reply.Ok?
  }

  /** An address that is attached and has a text. */
  predicate ShowsAttached(reply: Reply) {
    reply.Ok? && reply.body.PublicIpBody? && reply.body.ip.state.Assigned? && reply.body.ip.address != ""
  }

  predicate ShowsTerminated(reply: Reply) {
    reply.Ok? && reply.body.PublicIpBody? && (reply.body.ip.state.Released? || reply.body.ip.state.Failed?)
  }

  predicate Decides(reply: Reply) {
    ShowsAttached(reply) || ShowsTerminated(reply)
  }

  /** Nothing has been asked for yet, nor looked at as if it had been. */
  ghost predicate Quiet(sent: seq<Event>) {
    forall i | 0 <= i < |sent| :: !sent[i].req.GetPublicIp? && !sent[i].req.CreatePublicIp?
  }

  ghost predicate NoneBare(sent: seq<Event>) {
    forall i | 0 <= i < |sent| :: sent[i].req.GetByPrivateIp? ==> !IsBare(sent[i].reply)
  }

  ghost predicate NoneGranted(sent: seq<Event>) {
    forall i | 0 <= i < |sent| :: sent[i].req.CreatePublicIp? ==> !sent[i].reply.Ok?
  }

  ghost predicate NoneAttached(sent: seq<Event>) {
    forall i | 0 <= i < |sent| :: sent[i].req.GetPublicIp? ==> !ShowsAttached(sent[i].reply)
  }

  ghost predicate Undecided(sent: seq<Event>) {
    forall i | 0 <= i < |sent| :: sent[i].req.GetPublicIp? ==> !Decides(sent[i].reply)
  }

  ghost predicate NeverLooked(sent: seq<Event>) {
    forall i | 0 <= i < |sent| :: !sent[i].req.GetPublicIp?
  }

  /** Which answers a rotation cannot go on from: none of a look at the new address, a conflict
      only once it is `late`, and a 404 neither of a look at the private IP nor of a delete. */
  predicate Fatal(req: Request, reply: Reply, late: bool) {
    match req
    case GetPublicIp(_) => false
    case GetByPrivateIp(_) => reply != ApiError(404)
    case DeletePublicIp(_) => reply != ApiError(404)
    case CreatePublicIp(_, _, _) => reply == ApiError(409) ==> late
    case _ => true
  }

  /** A call's failure is what was answered last, or the context having ended. */
  ghost predicate Refused(r: CallResult, sent: seq<Event>, cancelled: bool, late: bool) {
    && sent != []
    && match r
       case Replied(reply) =>
         var e := sent[|sent| - 1];
         e.reply == reply && !reply.Ok? && Fatal(e.req, reply, late)
       case ContextDone => cancelled
  }

  /** The last answer was this record. */
  ghost predicate Shown(sent: seq<Event>, r: Record) {
    sent != [] && sent[|sent| - 1].req.GetByPrivateIp? && sent[|sent| - 1].reply.Ok?
      && RecordOf(sent[|sent| - 1].reply.body) == r
  }

  /** The last answer was a RESERVED address on a private IP. */
  ghost predicate ShowsReserved(sent: seq<Event>) {
    && sent != [] && sent[|sent| - 1].req.GetByPrivateIp? && sent[|sent| - 1].reply.Ok?
    && sent[|sent| - 1].reply.body.PublicIpBody? && sent[|sent| - 1].reply.body.ip.lifetime.Reserved?
  }

  /** The last answer showed this address attached under this text. */
  ghost predicate SeenAttached(sent: seq<Event>, id: Ocid, text: string) {
    && sent != [] && sent[|sent| - 1].req == GetPublicIp(id) && ShowsAttached(sent[|sent| - 1].reply)
    && sent[|sent| - 1].reply.body.ip.address == text
  }

  /** Reads of the directory, which does not say what a private IP carries. */
  predicate Browses(r: Request) {
    r.GetInstance? || r.ListAttachments? || r.GetVnic? || r.ListPrivateIps?
  }

  ghost predicate Browsing(sent: seq<Event>) {
    forall i | 0 <= i < |sent| :: Browses(sent[i].req)
  }

  lemma {:induction false} BrowsedNothing(sent: seq<Event>)
    requires sent == []
    ensures Browsing(sent)
  {
  }

  lemma {:induction false} BrowsingMeans(sent: seq<Event>)
    requires Browsing(sent)
    ensures ReadOnly(sent) && Quiet(sent) && NeverLooked(sent) && NoneGranted(sent)
  {
  }

  lemma {:induction false} QuietMeans(sent: seq<Event>)
    requires Quiet(sent)
    ensures NeverLooked(sent) && NoneGranted(sent)
  {
  }

  lemma {:induction false} StillNoneBare(a: Log, b: Log)
    requires Browsing(a.sent) && Extends(a, b) && NeverSince(a, b, IsBare)
    ensures NoneBare(b.sent)
  {
    assert forall i | 0 <= i < |a.sent| :: b.sent[i] == a.sent[i];
  }

  lemma {:induction false} ReleaseFailed(a: Log, mid: Log, b: Log, p: Ocid, id: Ocid)
    requires Quiet(a.sent) && NoneBare(a.sent) && Only(a, mid, DeletePublicIp(id)) && Only(mid, b, GetByPrivateIp(p))
    requires NeverSince(mid, b, IsBare)
    ensures Quiet(b.sent) && NoneBare(b.sent) && Undecided(b.sent) && NoneGranted(b.sent)
  {
    forall i | 0 <= i < |b.sent|
      ensures !b.sent[i].req.GetPublicIp? && !b.sent[i].req.CreatePublicIp?
      ensures b.sent[i].req.GetByPrivateIp? ==> !IsBare(b.sent[i].reply)
    {
      assert i < |mid.sent| ==> b.sent[i] == mid.sent[i];
      assert i < |a.sent| ==> mid.sent[i] == a.sent[i];
    }
  }

  lemma {:induction false} AllocateFailed(a: Log, b: Log, create: Request)
    requires Quiet(a.sent) && Only(a, b, create) && create.CreatePublicIp? && |a.sent| < |b.sent|
    requires NeverSince(a, b, IsOk)
    ensures NeverLooked(b.sent) && NoneGranted(b.sent) && Undecided(b.sent) && !Quiet(b.sent)
  {
    assert forall i | 0 <= i < |a.sent| :: b.sent[i] == a.sent[i];
    assert b.sent[|a.sent|].req == create;
  }

  lemma {:induction false} AssignFailed(a: Log, mid: Log, b: Log, create: Request, id: Ocid)
    requires Quiet(a.sent) && Only(a, mid, create) && create.CreatePublicIp? && Only(mid, b, GetPublicIp(id))
    requires |a.sent| < |mid.sent| < |b.sent| && NeverSince(mid, b, ShowsAttached)
    ensures NoneAttached(b.sent) && !NeverLooked(b.sent) && !Quiet(b.sent)
    ensures NeverSince(mid, b, Decides) ==> Undecided(b.sent)
  {
    forall i | 0 <= i < |mid.sent|
      ensures !b.sent[i].req.GetPublicIp?
    {
      assert b.sent[i] == mid.sent[i];
      assert i < |a.sent| ==> mid.sent[i] == a.sent[i];
    }
    assert b.sent[|mid.sent|].req == GetPublicIp(id);
  }

  // ---------------------------------------------------------------- one rotation, as it went

  /** A rotation that was asked for: the cloud before it, what was sent, the cloud after it, and
      what it noted, drew and returned. */
  datatype Rotation = Rotation(
    instance: Ocid, before: State, sent: seq<Event>, after: State,
    seen: Option<Ocid>, drawn: Ocid, oldIP: string, newIP: string, err: Option<Error>)

  function RotationOf(instance: Ocid, before: State, sent: seq<Event>, after: State, seen: Option<Ocid>, drawn: Ocid,
                      oldIP: string, r: Result<string, Error>): Rotation {
    match r
    case Success(ip) => Rotation(instance, before, sent, after, seen, drawn, oldIP, ip, None)
    case Failure(e) => Rotation(instance, before, sent, after, seen, drawn, oldIP, "", Some(e))
  }

  /** What every rotation keeps, whatever the cloud does and however it ends. */
  ghost predicate Performed(topo: Topology, c: Rotation) {
    var p := TargetIp(topo, c.instance);
    && Run(topo, c.before, c.sent, c.after) && Follows(topo, c.instance, c.sent, c.seen)
    && SeenAt(c.before, p, c.seen, c.oldIP) && Safe(c.before, c.after, p, c.seen)
    && Consistent(c.before) && Consistent(c.after)
    && (if c.err.Some? then c.newIP == "" else Acquired(c, p))
  }

  /** The address returned is new, and attached to the target. */
  ghost predicate Acquired(c: Rotation, p: Ocid) {
    c.newIP != "" && c.drawn !in c.before && Bound(c.after, p, c.drawn) && HasAddress(c.after, c.drawn, c.newIP)
  }

  /** The protocol, followed from a consistent cloud, makes a rotation safe. */
  lemma {:induction false} ProtocolIsSafe(topo: Topology, c: Rotation)
    requires Consistent(c.before) && Consistent(c.after)
    requires Run(topo, c.before, c.sent, c.after) && Follows(topo, c.instance, c.sent, c.seen)
    requires SeenAt(c.before, TargetIp(topo, c.instance), c.seen, c.oldIP)
    requires if c.err.Some? then c.newIP == ""
             else c.newIP != "" && HasAddress(c.after, c.drawn, c.newIP) && c.drawn !in c.before
    ensures Performed(topo, c)
  {
    ConfinedRunIsSafe(topo, c.before, c.sent, c.after, TargetIp(topo, c.instance), c.seen);
  }

  /** A rotation lets go of at most the address it saw, and blind re-sends leave at most one
      allocation that the cloud has not itself given up. */
  lemma {:induction false} PerformedBounds(topo: Topology, c: Rotation)
    requires Performed(topo, c)
    ensures ReleasedSince(c.before, c.after) <= (if c.seen.Some? then {c.seen.value} else {})
    ensures |AllocatedSince(c.before, c.after)| <= 1 + |FailedSince(c.before, c.after)|
  {
    var p := TargetIp(topo, c.instance);
    AtMostOneRelease(c.before, c.after, p, c.seen);
    AtMostOneAllocation(c.before, c.after, p, c.seen);
  }

  /** Whatever a rotation creates, it creates on its own private IP, in the compartment of that or, if it
      has none, of the instance, and under the instance's name. */
  lemma {:induction false} CreatesAreItsOwn(topo: Topology, c: Rotation, i: nat)
    requires Performed(topo, c) && i < |c.sent| && c.sent[i].req.CreatePublicIp?
    ensures TargetOf(topo, c.instance).Some?
    ensures var (inst, ip) := TargetOf(topo, c.instance).value;
            var req := c.sent[i].req;
            && req.priv == ip.id && req.name == "ghost-" + inst.displayName
            && (ip.compartment != "" ==> req.compartment == ip.compartment)
            && (ip.compartment == "" ==> req.compartment == inst.compartment)
  {
  }

  // ---------------------------------------------------------------- polling bounds

  /** The most calls a loop makes that polls every `interval` until `timeout` has passed. */
  function PollBound(timeout: int, interval: int): int
    requires interval > 0
  {
    if timeout < 0 then 1 else timeout / interval + 2
  }

  function Times(n: nat, p: int): int {
    if n == 0 then 0 else Times(n - 1, p) + p
  }

  lemma {:induction false} TimesIsProduct(n: nat, p: int)
    ensures Times(n, p) == n * p
  {
    if n > 0 {
      TimesIsProduct(n - 1, p);
      assert n * p == (n - 1) * p + p;
    }
  }

  /** A loop that pauses `interval` between calls has made few of them while `timeout` has not passed. */
  lemma {:induction false} FewCalls(n: nat, interval: int, timeout: int)
    requires interval > 0 && Times(n, interval) <= timeout
    ensures n + 2 <= PollBound(timeout, interval)
  {
    TimesIsProduct(n, interval);
    assert timeout < (timeout / interval + 1) * interval;
    assert (n - (timeout / interval + 1)) * interval < 0;
  }

  /** With the timeouts a provider has unless told otherwise. */
  lemma {:induction false} DefaultBounds()
    ensures PollBound(RELEASE_TIMEOUT, POLL_INTERVAL) == 32 && PollBound(ASSIGN_TIMEOUT, POLL_INTERVAL) == 42
  {
  }

  // ---------------------------------------------------------------- the provider

  datatype Binding = Binding(instance: Instance, privateIp: PrivateIp, publicIp: Option<Record>)

  const RELEASE_TIMEOUT := 90 * SECOND
  const ASSIGN_TIMEOUT := 120 * SECOND
  const POLL_INTERVAL := 3 * SECOND

  class Oracle {
    const cloud: Cloud
    const releaseTimeout: int
    const assignTimeout: int
    const pollInterval: int
    /** Every rotation this provider was asked for. */
    ghost var calls: seq<Rotation>

    constructor (cloud: Cloud, releaseTimeout: int := RELEASE_TIMEOUT, assignTimeout: int := ASSIGN_TIMEOUT,
                 pollInterval: int := POLL_INTERVAL)
      ensures this.cloud == cloud && this.releaseTimeout == releaseTimeout && this.assignTimeout == assignTimeout
      ensures this.pollInterval == pollInterval && calls == []
    {
      this.cloud, this.releaseTimeout, this.assignTimeout, this.pollInterval :=
        cloud, releaseTimeout, assignTimeout, pollInterval;
      calls := [];
    }

    ghost predicate Valid()
      reads cloud
    {
      cloud.Valid() && pollInterval > 0
    }

    ghost predicate Tracks(l: Log)
      reads cloud
    {
      cloud.trace == l.base + l.sent && Run(cloud.topo, l.start, l.sent, cloud.st)
    }

    /** The error is one the cloud, the clock or the context gave cause for since `from`, and no
        answer was given that would have averted it. */
    ghost predicate Blamed(e: Error, sent: seq<Event>, from: int)
      reads cloud
    {
      match e
      case CallFailed(r) =>
        Refused(r, sent, cloud.cancelled, cloud.now > from + assignTimeout) && NeverLooked(sent) && NoneGranted(sent)
      case ReservedIp => Quiet(sent) && ShowsReserved(sent)
      case TerminatedEarly =>
        && NoneAttached(sent)
        && sent != [] && sent[|sent| - 1].req.GetPublicIp? && ShowsTerminated(sent[|sent| - 1].reply)
      case ReleaseTimedOut => cloud.now > from + releaseTimeout && Quiet(sent) && NoneBare(sent)
      case AssignTimedOut => cloud.now > from + assignTimeout && !NeverLooked(sent) && Undecided(sent)
      case Cancelled =>
        && cloud.cancelled && Undecided(sent)
        && (Quiet(sent) ==> NoneBare(sent)) && (NeverLooked(sent) ==> NoneGranted(sent))
      case NoPrimaryVnic => false
      case NoPrimaryPrivateIp => false
    }

    ghost predicate Justified(instance: Ocid, e: Error, sent: seq<Event>, from: int)
      reads cloud
    {
      if e.NoPrimaryVnic? || e.NoPrimaryPrivateIp? then TargetOf(cloud.topo, instance) == None && Quiet(sent)
      else Blamed(e, sent, from)
    }

    lemma {:induction false} JustifiedSawNone(instance: Ocid, e: Error, sent: seq<Event>, from: int)
      requires Justified(instance, e, sent, from)
      ensures NoneAttached(sent) && forall id, text :: !SeenAttached(sent, id, text)
    {
    }

    /** Extends a run by one call. */
    method Call(req: Request, ghost l: Log) returns (r: CallResult, ghost l': Log)
      requires Valid() && Tracks(l)
      modifies cloud
      ensures Valid() && cloud.Later() && Tracks(l') && Calls(l, l', req, [r]) && Sends(l, l', req, 1)
      ensures r.Replied? ==> l'.sent[|l'.sent| - 1].reply == r.reply
      ensures r.ContextDone? ==> cloud.cancelled
    {
      hide Run, AreCalls;
      ghost var more;
      r, more := Do(cloud, req);
      RunConcat(cloud.topo, l.start, l.sent, old(cloud.st), more, cloud.st);
      l' := l.(sent := l.sent + more);
      OneCall(l, more, req, r);
      CallsMean(l, l', req, [r]);
      hide Calls;
      assert cloud.trace == l'.base + l'.sent;
    }

    /** Extends a run that only browsed by one reading call, answered from a state `at` on the way. */
    method Read(req: Request, ghost l: Log) returns (r: CallResult, ghost l': Log, ghost at: State)
      requires Valid() && Tracks(l) && Browsing(l.sent) && (Browses(req) || req.GetByPrivateIp?)
      modifies cloud
      ensures Valid() && cloud.Later() && Tracks(l') && Calls(l, l', req, [r]) && Sends(l, l', req, 1)
      ensures ReadOnly(l'.sent) && Quiet(l'.sent) && (Browses(req) ==> Browsing(l'.sent))
      ensures Evolves(l.start, at) && Evolves(at, cloud.st)
      ensures r.Replied? ==> Honest(cloud.topo, at, req, Nothing, r.reply) && l'.sent[|l'.sent| - 1].reply == r.reply
      ensures r.ContextDone? ==> cloud.cancelled
    {
      hide Calls, Run, Honest;
      r, l' := Call(req, l);
      ReadOnlyRun(cloud.topo, l.start, l'.sent, cloud.st);
      at := l'.sent[|l'.sent| - 1].at;
    }

    method FindPrimaryVnic(attachments: seq<Attachment>, ghost l: Log)
      returns (primary: Result<Ocid, Error>, ghost l': Log)
      requires Valid() && Tracks(l) && Browsing(l.sent)
      modifies cloud
      ensures Valid() && cloud.Later() && Tracks(l') && Extends(l, l') && Browsing(l'.sent)
      ensures |l'.sent| <= |l.sent| + MAX_ATTEMPTS * |attachments|
      ensures primary.Success? ==> PrimaryVnic(cloud.topo, attachments) == Some(primary.value)
      ensures primary.Failure? ==>
                if primary.error.NoPrimaryVnic? then PrimaryVnic(cloud.topo, attachments) == None
                else primary.error.CallFailed? && Refused(primary.error.result, l'.sent, cloud.cancelled, false)
    {
      l' := l;
      for i := 0 to |attachments|
        invariant Valid() && cloud.Later() && Tracks(l') && Extends(l, l') && Browsing(l'.sent)
        invariant |l'.sent| <= |l.sent| + MAX_ATTEMPTS * i
        invariant PrimaryVnic(cloud.topo, attachments) == PrimaryVnic(cloud.topo, attachments[i..])
      {
        var att := attachments[i];
        assert attachments[i..][0] == att && attachments[i..][1..] == attachments[i + 1..];
        if att.attached && att.vnic != "" {
          var r;
          ghost var at;
          r, l', at := Read(GetVnic(att.vnic), l');
          if !Succeeded(r) {
            return Failure(CallFailed(r)), l';
          }
          if r.reply.body.isPrimary {
            return Success(att.vnic), l';
          }
        }
      }
      primary := Failure(NoPrimaryVnic);
    }

    method FindPrimaryPrivateIp(ips: seq<PrivateIp>) returns (r: Result<PrivateIp, Error>)
      ensures r == (match PrimaryOf(ips) case None => Failure(NoPrimaryPrivateIp) case Some(ip) => Success(ip))
    {
      for i := 0 to |ips|
        invariant PrimaryOf(ips) == PrimaryOf(ips[i..])
      {
        assert ips[i..][0] == ips[i] && ips[i..][1..] == ips[i + 1..];
        if ips[i].isPrimary {
          return Success(ips[i]);
        }
      }
      r := Failure(NoPrimaryPrivateIp);
    }

    /** Finds the instance and its primary VNIC, by reading only. */
    method FindVnic(instance: Ocid, ghost l: Log) returns (v: Result<(Instance, Ocid), Error>, ghost l': Log)
      requires Valid() && Tracks(l) && Browsing(l.sent)
      modifies cloud
      ensures Valid() && cloud.Later() && Tracks(l') && Extends(l, l') && Browsing(l'.sent)
      ensures |l'.sent| <= |l.sent| + MAX_ATTEMPTS * (2 + VnicsOf(cloud.topo, instance))
      ensures v.Success? ==> VnicOf(cloud.topo, instance) == Some(v.value)
      ensures v.Failure? ==>
                if v.error.NoPrimaryVnic? then VnicOf(cloud.topo, instance) == None
                else v.error.CallFailed? && Refused(v.error.result, l'.sent, cloud.cancelled, false)
    {
      var r;
      ghost var at;
      r, l', at := Read(GetInstance(instance), l);
      if !Succeeded(r) {
        return Failure(CallFailed(r)), l';
      }
      var inst := r.reply.body.instance;
      r, l', at := Read(ListAttachments(inst.id), l');
      if !Succeeded(r) {
        return Failure(CallFailed(r)), l';
      }
      var primary;
      primary, l' := FindPrimaryVnic(r.reply.body.attachments, l');
      v := match primary case Failure(e) => Failure(e) case Success(id) => Success((inst, id));
    }

    /** Finds the private IP to rotate, by reading only. */
    method FindTarget(instance: Ocid, ghost l: Log) returns (t: Result<(Instance, PrivateIp), Error>, ghost l': Log)
      requires Valid() && Tracks(l) && Browsing(l.sent)
      modifies cloud
      ensures Valid() && cloud.Later() && Tracks(l') && Extends(l, l') && Browsing(l'.sent)
      ensures |l'.sent| <= |l.sent| + MAX_ATTEMPTS * (3 + VnicsOf(cloud.topo, instance))
      ensures t.Success? ==> TargetOf(cloud.topo, instance) == Some(t.value)
      ensures t.Failure? ==> Justified(instance, t.error, l'.sent, old(cloud.now)) && !t.error.ReservedIp?
    {
      var v;
      v, l' := FindVnic(instance, l);
      if v.Failure? {
        return Failure(v.error), l';
      }
      var r;
      ghost var at;
      r, l', at := Read(ListPrivateIps(v.value.1), l');
      if !Succeeded(r) {
        return Failure(CallFailed(r)), l';
      }
      var ip := FindPrimaryPrivateIp(r.reply.body.privateIps);
      t := match ip case Failure(e) => Failure(e) case Success(p) => Success((v.value.0, p));
    }

    /** The public IP on a private IP, if one is there. */
    method FindOccupant(p: Ocid, ghost l: Log) returns (o: Result<Option<Record>, Error>, ghost l': Log)
      requires Valid() && Tracks(l) && Browsing(l.sent)
      modifies cloud
      ensures Valid() && cloud.Later() && Tracks(l') && Extends(l, l') && ReadOnly(l'.sent) && Quiet(l'.sent)
      ensures |l'.sent| <= |l.sent| + MAX_ATTEMPTS
      ensures o.Failure? ==> o.error.CallFailed? && Refused(o.error.result, l'.sent, cloud.cancelled, false)
      ensures o.Success? && o.value.Some? ==>
                Reflects(l.start, p, o.value.value) && Shown(l'.sent, o.value.value) && NoneBare(l'.sent)
      ensures o == Success(None) ==> ObservedBare(l'.sent, |l'.sent|, p, None)
    {
      hide Run, Calls;
      var r;
      ghost var at;
      r, l', at := Read(GetByPrivateIp(p), l);
      if Succeeded(r) {
        NeverReturned(l, l', GetByPrivateIp(p), [r], IsBare);
        StillNoneBare(l, l');
        o := Success(Some(RecordOf(r.reply.body)));
      } else if IsNotFound(r) {
        o := Success(None);
      } else {
        o := Failure(CallFailed(r));
      }
    }

    /** The target and the public IP it carries. */
    method Describe(instance: Ocid, ghost l: Log) returns (b: Result<Binding, Error>, ghost l': Log)
      requires Valid() && Tracks(l) && Browsing(l.sent)
      modifies cloud
      ensures Valid() && cloud.Later() && Tracks(l') && Extends(l, l') && ReadOnly(l'.sent) && Quiet(l'.sent)
      ensures |l'.sent| <= |l.sent| + MAX_ATTEMPTS * (4 + VnicsOf(cloud.topo, instance))
      ensures b.Success? ==> TargetOf(cloud.topo, instance) == Some((b.value.instance, b.value.privateIp))
      ensures b.Failure? ==> Justified(instance, b.error, l'.sent, old(cloud.now)) && !b.error.ReservedIp?
      ensures b.Success? && b.value.publicIp.Some? ==>
                && Reflects(l.start, b.value.privateIp.id, b.value.publicIp.value)
                && Shown(l'.sent, b.value.publicIp.value) && NoneBare(l'.sent)
      ensures b.Success? && b.value.publicIp.None? ==> ObservedBare(l'.sent, |l'.sent|, b.value.privateIp.id, None)
    {
      var t;
      t, l' := FindTarget(instance, l);
      BrowsingMeans(l'.sent);
      if t.Failure? {
        return Failure(t.error), l';
      }
      var (inst, privateIp) := t.value;
      var o;
      o, l' := FindOccupant(privateIp.id, l');
      QuietMeans(l'.sent);
      b := match o case Failure(e) => Failure(e) case Success(pub) => Success(Binding(inst, privateIp, pub));
    }

    /** Pauses a polling loop; `done` when the context ends the pause. */
    method Pause(ghost l: Log) returns (done: bool)
      requires Valid() && Tracks(l)
      modifies cloud
      ensures Valid() && cloud.Later() && Tracks(l)
      ensures !done ==> cloud.now >= old(cloud.now) + pollInterval
      ensures done ==> cloud.cancelled
    {
      done := cloud.Wait(pollInterval);
      RunEvolves(cloud.topo, l.start, l.sent, old(cloud.st), cloud.st);
    }

    /** The most client calls one rotation of the instance makes. */
    ghost function CallBound(instance: Ocid): int
      requires pollInterval > 0
    {
      5 + VnicsOf(cloud.topo, instance) + PollBound(releaseTimeout, pollInterval)
        + 2 * PollBound(assignTimeout, pollInterval)
    }

    /** Polls until the private IP answers 404, a timeout passes, or the context ends: it stops at
        the first look answered 404, and fails only if none was. */
    method WaitReleased(p: Ocid, ghost l: Log)
      returns (err: Option<Error>, ghost answers: seq<CallResult>, ghost l': Log)
      requires Valid() && Tracks(l)
      modifies cloud
      ensures Valid() && cloud.Later() && Tracks(l') && Calls(l, l', GetByPrivateIp(p), answers)
      ensures Sends(l, l', GetByPrivateIp(p), |answers|) && 1 <= |answers| <= PollBound(releaseTimeout, pollInterval)
      ensures forall i | 0 <= i < |answers| - 1 :: !IsNotFound(answers[i])
      ensures err.None? <==> IsNotFound(answers[|answers| - 1])
      ensures err.None? ==> l'.sent[|l'.sent| - 1].reply == ApiError(404)
      ensures err.Some? ==>
                && NeverSince(l, l', IsBare)
                && if err.value.ReleaseTimedOut? then cloud.now > old(cloud.now) + releaseTimeout
                   else err.value.Cancelled? && cloud.cancelled
    {
      hide Run, Calls;
      var deadline := cloud.now + releaseTimeout;
      l', answers := l, [];
      NoCalls(l, GetByPrivateIp(p));
      while true
        invariant Valid() && cloud.Later() && Tracks(l')
        invariant Calls(l, l', GetByPrivateIp(p), answers) && Sends(l, l', GetByPrivateIp(p), |answers|)
        invariant forall i | 0 <= i < |answers| :: !IsNotFound(answers[i])
        invariant old(cloud.now) + Times(|answers|, pollInterval) <= cloud.now
        invariant |answers| + 1 <= PollBound(releaseTimeout, pollInterval)
        decreases PollBound(releaseTimeout, pollInterval) - |answers|
      {
        var r;
        ghost var last := l';
        r, l' := Call(GetByPrivateIp(p), last);
        OnceMore(l, last, l', GetByPrivateIp(p), answers, r);
        answers := answers + [r];
        if IsNotFound(r) {
          return None, answers, l';
        }
        NeverReturned(l, l', GetByPrivateIp(p), answers, IsBare);
        if cloud.now > deadline {
          return Some(ReleaseTimedOut), answers, l';
        }
        FewCalls(|answers| - 1, pollInterval, releaseTimeout);
        var done := Pause(l');
        if done {
          return Some(Cancelled), answers, l';
        }
      }
    }

    /** One create, and what a successful one says about the address it names. */
    method Create(req: Request, ghost l: Log) returns (r: CallResult, ghost l': Log)
      requires Valid() && Tracks(l) && req.CreatePublicIp?
      modifies cloud
      ensures Valid() && cloud.Later() && Tracks(l') && Calls(l, l', req, [r]) && Sends(l, l', req, 1)
      ensures Succeeded(r) ==> IsNew(RecordOf(r.reply.body), l.start, cloud.st, req.priv)
      ensures r.Replied? ==> l'.sent[|l'.sent| - 1].reply == r.reply
      ensures r.ContextDone? ==> cloud.cancelled
    {
      hide Run, Calls;
      r, l' := Call(req, l);
      RunLast(cloud.topo, l.start, l'.sent, cloud.st);
    }

    /** Creates until a create succeeds, fails for another reason than a conflict, or a conflict
        arrives past the deadline. */
    method Allocate(inst: Instance, ip: PrivateIp, ghost l: Log)
      returns (drawn: Result<Record, Error>, ghost answers: seq<CallResult>, ghost l': Log)
      requires Valid() && Tracks(l)
      modifies cloud
      ensures Valid() && cloud.Later() && Tracks(l') && Calls(l, l', CreateRequest(inst, ip), answers)
      ensures Sends(l, l', CreateRequest(inst, ip), |answers|)
      ensures 1 <= |answers| <= PollBound(assignTimeout, pollInterval)
      ensures forall i | 0 <= i < |answers| - 1 :: IsConflict(answers[i])
      ensures drawn.Success? <==> Succeeded(answers[|answers| - 1])
      ensures drawn.Success? ==>
                && drawn.value == RecordOf(answers[|answers| - 1].reply.body)
                && IsNew(drawn.value, l.start, cloud.st, ip.id)
      ensures drawn.Failure? ==>
                && NeverSince(l, l', IsOk)
                && if drawn.error.CallFailed? then
                     && drawn.error.result == answers[|answers| - 1]
                     && (IsConflict(drawn.error.result) ==> cloud.now > old(cloud.now) + assignTimeout)
                     && (drawn.error.result.ContextDone? ==> cloud.cancelled)
                     && (drawn.error.result.Replied? ==> l'.sent[|l'.sent| - 1].reply == drawn.error.result.reply)
                   else drawn.error.Cancelled? && cloud.cancelled && IsConflict(answers[|answers| - 1])
    {
      var req := CreateRequest(inst, ip);
      hide Run, Calls;
      var deadline := cloud.now + assignTimeout;
      l', answers := l, [];
      NoCalls(l, req);
      while true
        invariant Valid() && cloud.Later() && Tracks(l')
        invariant Calls(l, l', req, answers) && Sends(l, l', req, |answers|)
        invariant forall i | 0 <= i < |answers| :: IsConflict(answers[i])
        invariant old(cloud.now) + Times(|answers|, pollInterval) <= cloud.now
        invariant |answers| + 1 <= PollBound(assignTimeout, pollInterval)
        decreases PollBound(assignTimeout, pollInterval) - |answers|
      {
        var r;
        ghost var last := l';
        r, l' := Create(req, last);
        OnceMore(l, last, l', req, answers, r);
        answers := answers + [r];
        if Succeeded(r) {
          return Success(RecordOf(r.reply.body)), answers, l';
        }
        NeverReturned(l, l', req, answers, IsOk);
        if !IsConflict(r) || cloud.now > deadline {
          return Failure(CallFailed(r)), answers, l';
        }
        FewCalls(|answers| - 1, pollInterval, assignTimeout);
        var done := Pause(l');
        if done {
          return Failure(Cancelled), answers, l';
        }
      }
    }

    /** One look at a public IP; an attached one stays as it was seen. */
    method Look(id: Ocid, ghost l: Log) returns (r: CallResult, ghost l': Log)
      requires Valid() && Tracks(l)
      modifies cloud
      ensures Valid() && cloud.Later() && Tracks(l')
      ensures Calls(l, l', GetPublicIp(id), [r]) && Sends(l, l', GetPublicIp(id), 1)
      ensures Succeeded(r) && RecordOf(r.reply.body).isAssigned ==>
                HasAddress(cloud.st, id, RecordOf(r.reply.body).address)
      ensures Succeeded(r) ==> l'.sent[|l'.sent| - 1].reply == r.reply
    {
      hide Run, Calls;
      r, l' := Call(GetPublicIp(id), l);
      RunLast(cloud.topo, l.start, l'.sent, cloud.st);
    }

    /** Polls until a look shows the address attached or terminated, a timeout passes, or the context
        ends. The first such look decides; the text returned is then what the cloud says it is. */
    method WaitAssigned(id: Ocid, ghost l: Log)
      returns (address: Result<string, Error>, ghost answers: seq<CallResult>, ghost l': Log)
      requires Valid() && Tracks(l)
      modifies cloud
      ensures Valid() && cloud.Later() && Tracks(l') && Calls(l, l', GetPublicIp(id), answers)
      ensures Sends(l, l', GetPublicIp(id), |answers|) && 1 <= |answers| <= PollBound(assignTimeout, pollInterval)
      ensures forall i | 0 <= i < |answers| - 1 :: answers[i].Replied? ==> !Decides(answers[i].reply)
      ensures address.Success? <==>
                answers[|answers| - 1].Replied? && ShowsAttached(answers[|answers| - 1].reply)
      ensures address.Success? ==>
                && address.value != "" && HasAddress(cloud.st, id, address.value)
                && ShowsAttached(l'.sent[|l'.sent| - 1].reply)
                && address.value == l'.sent[|l'.sent| - 1].reply.body.ip.address
      ensures address.Failure? ==> NeverSince(l, l', ShowsAttached)
      ensures address == Failure(TerminatedEarly) ==> ShowsTerminated(l'.sent[|l'.sent| - 1].reply)
      ensures address.Failure? && !address.error.TerminatedEarly? ==>
                && NeverSince(l, l', Decides)
                && if address.error.AssignTimedOut? then cloud.now > old(cloud.now) + assignTimeout
                   else address.error.Cancelled? && cloud.cancelled
    {
      hide Run, Calls;
      var deadline := cloud.now + assignTimeout;
      l', answers := l, [];
      NoCalls(l, GetPublicIp(id));
      while true
        invariant Valid() && cloud.Later() && Tracks(l')
        invariant Calls(l, l', GetPublicIp(id), answers) && Sends(l, l', GetPublicIp(id), |answers|)
        invariant forall i | 0 <= i < |answers| :: answers[i].Replied? ==> !Decides(answers[i].reply)
        invariant old(cloud.now) + Times(|answers|, pollInterval) <= cloud.now
        invariant |answers| + 1 <= PollBound(assignTimeout, pollInterval)
        decreases PollBound(assignTimeout, pollInterval) - |answers|
      {
        var r;
        ghost var last := l';
        r, l' := Look(id, last);
        OnceMore(l, last, l', GetPublicIp(id), answers, r);
        answers := answers + [r];
        if Succeeded(r) {
          var ip := RecordOf(r.reply.body);
          if ip.isAssigned && ip.address != "" {
            return Success(ip.address), answers, l';
          }
          NeverReturned(l, l', GetPublicIp(id), answers, ShowsAttached);
          if ip.isTerminated {
            return Failure(TerminatedEarly), answers, l';
          }
        }
        NeverReturned(l, l', GetPublicIp(id), answers, ShowsAttached);
        NeverReturned(l, l', GetPublicIp(id), answers, Decides);
        if cloud.now > deadline {
          return Failure(AssignTimedOut), answers, l';
        }
        FewCalls(|answers| - 1, pollInterval, assignTimeout);
        var done := Pause(l');
        if done {
          return Failure(Cancelled), answers, l';
        }
      }
    }

    /** Deletes the address seen on the private IP and waits until nothing is left there. */
    method Release(p: Ocid, pub: Record, ghost l: Log) returns (err: Option<Error>, ghost l': Log)
      requires Valid() && Tracks(l) && ReadOnly(l.sent) && Quiet(l.sent) && NoneBare(l.sent)
      modifies cloud
      ensures Valid() && cloud.Later() && Tracks(l') && Releases(l, l', p, pub.id) && Quiet(l'.sent)
      ensures |l'.sent| <= |l.sent| + MAX_ATTEMPTS * (1 + PollBound(releaseTimeout, pollInterval))
      ensures err.None? ==> ObservedBare(l'.sent, |l'.sent|, p, Some(pub.id))
      ensures err.Some? ==> !err.value.ReservedIp? && Blamed(err.value, l'.sent, old(cloud.now))
    {
      hide Run, Calls;
      var r;
      r, l' := Call(DeletePublicIp(pub.id), l);
      if !Succeeded(r) && !IsNotFound(r) {
        QuietMeans(l'.sent);
        return Some(CallFailed(r)), l';
      }
      ghost var mid, answers := l', [];
      err, answers, l' := WaitReleased(p, mid);
      if err.None? {
        DeletedThenBare(l, mid, l', p, pub.id);
      } else {
        ReleaseFailed(l, mid, l', p, pub.id);
      }
    }

    /** Allocates on a private IP observed bare and waits until the new address is attached. */
    method Draw(inst: Instance, ip: PrivateIp, ghost instance: Ocid, ghost seen: Option<Ocid>, ghost l: Log)
      returns (newIP: Result<string, Error>, ghost l': Log, ghost drawn: Ocid)
      requires Valid() && Tracks(l)
      requires TargetOf(cloud.topo, instance) == Some((inst, ip)) && Follows(cloud.topo, instance, l.sent, seen)
      requires ObservedBare(l.sent, |l.sent|, ip.id, seen) && Quiet(l.sent)
      modifies cloud
      ensures Valid() && cloud.Later() && Tracks(l') && Extends(l, l')
      ensures |l'.sent| <= |l.sent| + MAX_ATTEMPTS * (2 * PollBound(assignTimeout, pollInterval))
      ensures Follows(cloud.topo, instance, l'.sent, seen)
      ensures newIP.Success? ==>
                && newIP.value != "" && HasAddress(cloud.st, drawn, newIP.value) && drawn !in l.start
                && SeenAttached(l'.sent, drawn, newIP.value)
      ensures newIP.Failure? ==> !newIP.error.ReservedIp? && Blamed(newIP.error, l'.sent, old(cloud.now))
    {
      hide Run, Calls, Follows, ObservedBare, Quiet, NoneAttached, Undecided, NeverLooked, NoneGranted;
      hide Only, Draws, Extends, NeverSince;
      var record;
      ghost var answers;
      drawn := "";
      record, answers, l' := Allocate(inst, ip, l);
      ghost var mid := l';
      if record.Failure? {
        CreatesAlone(l, mid, CreateRequest(inst, ip));
        DrawFollows(cloud.topo, instance, l, mid, inst, ip, seen);
        AllocateFailed(l, mid, CreateRequest(inst, ip));
        return Failure(record.error), mid, "";
      }
      drawn := record.value.id;
      newIP, answers, l' := WaitAssigned(record.value.id, mid);
      CreatesAndLooks(l, mid, l', CreateRequest(inst, ip), drawn);
      DrawsExtend(l, l', CreateRequest(inst, ip));
      DrawFollows(cloud.topo, instance, l, l', inst, ip, seen);
      if newIP.Failure? {
        AssignFailed(l, mid, l', CreateRequest(inst, ip), drawn);
      }
    }

    /** Rids a target found by reading of what it carries, unless that is a RESERVED address. */
    method Clear(instance: Ocid, b: Binding, ghost l: Log)
      returns (oldIP: string, err: Option<Error>, ghost l': Log, ghost seen: Option<Ocid>)
      requires Valid() && Tracks(l) && ReadOnly(l.sent) && Quiet(l.sent)
      requires TargetOf(cloud.topo, instance) == Some((b.instance, b.privateIp))
      requires b.publicIp.Some? ==>
                 && Reflects(l.start, b.privateIp.id, b.publicIp.value)
                 && Shown(l.sent, b.publicIp.value) && NoneBare(l.sent)
      requires b.publicIp.None? ==> ObservedBare(l.sent, |l.sent|, b.privateIp.id, None)
      modifies cloud
      ensures Valid() && cloud.Later() && Tracks(l') && Extends(l, l')
      ensures |l'.sent| <= |l.sent| + MAX_ATTEMPTS * (1 + PollBound(releaseTimeout, pollInterval))
      ensures Follows(cloud.topo, instance, l'.sent, seen)
      ensures SeenAt(l.start, b.privateIp.id, seen, oldIP)
      ensures err.None? ==> ObservedBare(l'.sent, |l'.sent|, b.privateIp.id, seen) && Quiet(l'.sent)
      ensures err == Some(ReservedIp) ==> ReadOnly(l'.sent)
      ensures err.Some? ==> Blamed(err.value, l'.sent, old(cloud.now))
    {
      hide Run, Follows, ReadOnly, ObservedBare, TargetOf, Refused, NoneBare;
      oldIP, err, l', seen := "", None, l, None;
      ReadingFollows(cloud.topo, instance, l.sent);
      if b.publicIp.None? {
        return;
      }
      var pub := b.publicIp.value;
      if pub.isReserved {
        err := Some(ReservedIp);
        return;
      }
      oldIP, seen := pub.address, Some(pub.id);
      err, l' := Release(b.privateIp.id, pub, l);
      ReleaseFollows(cloud.topo, instance, l, l', b.privateIp.id, pub.id);
    }

    /** An error of a later part of a rotation is one of the whole. */
    lemma {:induction false} BlamedSince(e: Error, sent: seq<Event>, from: int, later: int)
      requires Blamed(e, sent, later) && from <= later
      ensures Blamed(e, sent, from)
    {
    }

    /** The steps of a rotation, in order. */
    method Swap(instance: Ocid, ghost l: Log)
      returns (oldIP: string, newIP: Result<string, Error>, ghost l': Log, ghost seen: Option<Ocid>, ghost drawn: Ocid)
      requires Valid() && Tracks(l) && l.sent == []
      modifies cloud
      ensures Valid() && cloud.Later() && Tracks(l') && l'.base == l.base && l'.start == l.start
      ensures |l'.sent| <= MAX_ATTEMPTS * CallBound(instance)
      ensures Follows(cloud.topo, instance, l'.sent, seen)
      ensures SeenAt(l.start, TargetIp(cloud.topo, instance), seen, oldIP)
      ensures newIP == Failure(ReservedIp) ==> ReadOnly(l'.sent)
      ensures newIP.Success? ==> newIP.value != "" && HasAddress(cloud.st, drawn, newIP.value) && drawn !in l.start
      ensures newIP.Success? ==> SeenAttached(l'.sent, drawn, newIP.value)
      ensures newIP.Success? ==> TargetOf(cloud.topo, instance).Some?
      ensures newIP.Failure? ==> Justified(instance, newIP.error, l'.sent, old(cloud.now))
    {
      hide Run, Follows, ReadOnly, ObservedBare, Shown, VnicsOf, TargetOf, SeenAt, Reflects, Blamed;
      hide Quiet, NoneBare, SeenAttached, HasAddress;
      BrowsedNothing(l.sent);
      oldIP, seen, drawn := "", None, "";
      var b;
      b, l' := Describe(instance, l);
      if b.Failure? {
        ReadingFollows(cloud.topo, instance, l'.sent);
        NothingSeen(l.start, TargetIp(cloud.topo, instance));
        newIP := Failure(b.error);
        return;
      }
      ghost var cleared := cloud.now;
      var err;
      oldIP, err, l', seen := Clear(instance, b.value, l');
      if err.Some? {
        BlamedSince(err.value, l'.sent, old(cloud.now), cleared);
        newIP := Failure(err.value);
        return;
      }
      ghost var bare := cloud.now;
      newIP, l', drawn := Draw(b.value.instance, b.value.privateIp, instance, seen, l');
      if newIP.Failure? {
        BlamedSince(newIP.error, l'.sent, old(cloud.now), bare);
      }
    }

    /** The rotation and its record. */
    method Perform(instance: Ocid) returns (oldIP: string, r: Result<string, Error>, ghost c: Rotation)
      requires Valid()
      modifies cloud
      ensures Valid() && cloud.Later() && cloud.trace == old(cloud.trace) + c.sent
      ensures c == RotationOf(instance, old(cloud.st), c.sent, cloud.st, c.seen, c.drawn, oldIP, r)
      ensures Performed(cloud.topo, c) && |c.sent| <= MAX_ATTEMPTS * CallBound(instance)
      ensures r == Failure(ReservedIp) ==> ReadOnly(c.sent)
      ensures r.Failure? ==> Justified(instance, r.error, c.sent, old(cloud.now))
      ensures r.Success? ==> SeenAttached(c.sent, c.drawn, c.newIP)
    {
      ghost var l, seen, drawn;
      oldIP, r, l, seen, drawn := Swap(instance, Log(cloud.trace, cloud.st, []));
      c := RotationOf(instance, l.start, l.sent, cloud.st, seen, drawn, oldIP, r);
      ProtocolIsSafe(cloud.topo, c);
    }

    /** Releases the instance's ephemeral public IP and allocates a new one. The call is
        entered in the provider's history with what it sent, `seen` the id found on the private
        IP at the start and `drawn` the id of the address returned. */
    method RotateIP(instance: Ocid) returns (oldIP: string, newIP: string, err: Option<Error>, ghost c: Rotation)
      requires Valid()
      modifies cloud, this
      ensures Valid() && cloud.Later() && calls == old(calls) + [c]
      ensures c == Rotation(instance, old(cloud.st), c.sent, cloud.st, c.seen, c.drawn, oldIP, newIP, err)
      ensures cloud.trace == old(cloud.trace) + c.sent && Performed(cloud.topo, c)
      ensures |c.sent| <= MAX_ATTEMPTS * CallBound(instance)
      ensures err == Some(ReservedIp) ==> ReadOnly(c.sent)
      ensures err.Some? ==> Justified(instance, err.value, c.sent, old(cloud.now))
      ensures err.None? <==> SeenAttached(c.sent, c.drawn, newIP)
      ensures err.Some? ==> NoneAttached(c.sent)
    {
      hide Performed, Justified, SeenAttached, NoneAttached, Run;
      var r;
      oldIP, r, c := Perform(instance);
      match r {
        case Failure(e) =>
          newIP, err := "", Some(e);
          JustifiedSawNone(instance, e, c.sent, old(cloud.now));
        case Success(ip) => newIP, err := ip, None;
      }
      calls := calls + [c];
    }
  }
}
