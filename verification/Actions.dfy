/** What runs after a new address has been accepted: repoint the DNS record, tell the control
    plane, rewrite the ssh config. Each is best effort. */
module Actions {
  import opened Common
  import opened Text
  import opened SshConfig
  import opened SshConfigLaws
  import CF = Cloudflare
  import opened Nodes

  datatype Target = Target(name: string, instanceId: string, dnsRecord: string, nodeId: string, sshHost: string)

  /** ~/.ssh/config; None when it cannot be read. `faults` counts the replacements that failed. */
  class SshFile {
    var content: Option<string>
    ghost var faults: nat

    constructor (content: Option<string>)
      ensures this.content == content && faults == 0
    {
      this.content, this.faults := content, 0;
    }

    /** Replaces the file through a rename, so it holds the old text or the new. */
    method Replace(text: string) returns (ok: bool)
      modifies this
      ensures content == if ok then Some(text) else old(content)
      ensures faults >= old(faults) && (ok <==> faults == old(faults))
    {
      ok := *;
      if ok {
        content := Some(text);
      } else {
        faults := faults + 1;
      }
    }
  }

  class ControlPlane {
    const baseUrl: string
    const adminToken: string
    const service: NodeService

    constructor (baseUrl: string, adminToken: string, service: NodeService)
      ensures this.baseUrl == baseUrl && this.adminToken == adminToken && this.service == service
    {
      this.baseUrl, this.adminToken, this.service := baseUrl, adminToken, service;
    }

    /** The call to the control plane. It may not arrive, may fail there, and its answer may be lost;
        that nothing of the kind happened is what an unchanged count of faults says. */
    method PutAddress(id: NodeId, address: string) returns (ok: bool)
      requires address != ""
      modifies service.repo
      ensures ok <==> id in old(service.repo.rows) && service.repo.faults == old(service.repo.faults)
      ensures service.repo.faults >= old(service.repo.faults)
      ensures var t := old(service.repo.rows);
              || (service.repo.rows == t && !ok)
              || (id in t && service.repo.rows == t[id := t[id].(address := address)])
    {
      var reached, readable, works, answered := *, *, *, *;
      if !reached {
        service.repo.faults := service.repo.faults + 1;
        return false;
      }
      var known := id in service.repo.rows;
      var err := service.UpdateAddress(id, address, readable, works);
      ok := err.None? && answered;
      if known && !ok {
        service.repo.faults := service.repo.faults + 1;
      }
    }
  }

  datatype PostAction =
    | DnsAction(updater: CF.Cloudflare?)
    | ControlPlaneAction(plane: ControlPlane)
    | SshConfigAction(file: SshFile)

  function Name(a: PostAction): string {
    match a
    case DnsAction(u) => if u == null then "dns" else "dns/cloudflare"
    case ControlPlaneAction(_) => "control-plane"
    case SshConfigAction(_) => "ssh-config"
  }

  ghost function Footprint(a: PostAction): set<object> {
    match a
    case DnsAction(u) => if u == null then {} else {u, u.api}
    case ControlPlaneAction(p) => {p.service.repo}
    case SshConfigAction(f) => {f}
  }

  ghost function FootprintOf(actions: seq<PostAction>): set<object> {
    set i, o | 0 <= i < |actions| && o in Footprint(actions[i]) :: o
  }

  ghost predicate Ready(a: PostAction)
    reads Footprint(a)
  {
    a.DnsAction? && a.updater != null ==> a.updater.Valid()
  }

  /** The action has something to do for the target and the address. */
  predicate Applies(a: PostAction, target: Target, ip: string) {
    match a
    case DnsAction(u) => u != null && target.dnsRecord != "" && ip != ""
    case ControlPlaneAction(p) => p.baseUrl != "" && target.nodeId != "" && ip != ""
    case SshConfigAction(_) => target.sshHost != "" && ip != ""
  }

  /** The place the action looks after says `ip` for the target. */
  ghost predicate Says(a: PostAction, target: Target, ip: string)
    reads Footprint(a)
  {
    match a
    case DnsAction(u) => u != null && u.Points(target.dnsRecord, ip)
    case ControlPlaneAction(p) =>
      target.nodeId in p.service.repo.rows && p.service.repo.rows[target.nodeId].address == ip
    case SshConfigAction(f) => f.content.Some? && Lookup(f.content.value, target.sshHost) == Some(ip)
  }

  /** Nothing stands in the way of the action: its credentials and what it is to change are there. */
  ghost predicate Possible(a: PostAction, was: Record, target: Target, ip: string) {
    Applies(a, target, ip) ==>
      match a
      case DnsAction(u) => u.token != "" && u.TrueZone(target.dnsRecord).Some?
      case ControlPlaneAction(p) => p.adminToken != "" && was.Rows? && target.nodeId in was.rows
      case SshConfigAction(_) =>
        was.Config? && was.content.Some? && SetHostName(was.content.value, target.sshHost, ip).Some?
  }

  /** Runs one action: it fails exactly when it has something to do and that is not possible or a
      call it made went wrong. A success leaves its place saying the address; a failure, or an
      action of the same kind elsewhere, never takes that away. */
  method Apply(a: PostAction, target: Target, newIP: string) returns (ok: bool)
    requires Ready(a)
    modifies Footprint(a)
    ensures Ready(a)
    ensures !Applies(a, target, newIP) ==> ok && Recorded(a) == old(Recorded(a))
    ensures ok <==> Possible(a, old(Recorded(a)), target, newIP) && Recorded(a).faults == old(Recorded(a)).faults
    ensures ok && Applies(a, target, newIP) && (a.SshConfigAction? ==> Token(newIP)) ==> Says(a, target, newIP)
    ensures (|| newIP == "" || (a.DnsAction? && (a.updater == null || target.dnsRecord == ""))
             || (a.ControlPlaneAction? && (a.plane.baseUrl == "" || target.nodeId == ""))
             || (a.SshConfigAction? && target.sshHost == "")) ==>
              ok && Recorded(a) == old(Recorded(a))
    ensures newIP != "" && a.DnsAction? && a.updater != null && target.dnsRecord != "" && a.updater.token == "" ==> !ok
    ensures newIP != "" && a.ControlPlaneAction? && a.plane.baseUrl != "" && target.nodeId != "" ==>
              (a.plane.adminToken == "" || target.nodeId !in old(a.plane.service.repo.rows) ==> !ok)
    ensures newIP != "" && a.SshConfigAction? && target.sshHost != "" && old(a.file.content).None? ==> !ok
    ensures Keeps(a, old(Recorded(a)), Recorded(a), target, newIP)
  {
    match a {
      case DnsAction(u) =>
        if u == null || target.dnsRecord == "" || newIP == "" {
          return true;
        }
        var err := u.Upsert(target.dnsRecord, newIP);
        ok := err.None?;
      case ControlPlaneAction(p) =>
        if p.baseUrl == "" || target.nodeId == "" || newIP == "" {
          return true;
        }
        if p.adminToken == "" {
          return false;
        }
        ok := p.PutAddress(target.nodeId, newIP);
      case SshConfigAction(f) =>
        if target.sshHost == "" || newIP == "" {
          return true;
        }
        if f.content.None? {
          return false;
        }
        var updated := SetSSHHostName(f.content.value, target.sshHost, newIP);
        if updated.None? {
          return false;
        }
        if Token(newIP) {
          SetThenLookup(f.content.value, target.sshHost, newIP);
        }
        if updated.value == f.content.value {
          return true;
        }
        ok := f.Replace(updated.value);
    }
  }

  // ---------------------------------------------------------------- what an action may change

  /** The contents of the place an action looks after, and how many calls to it have gone wrong. */
  datatype Record =
    | Nowhere(faults: nat)
    | Zones(records: map<(CF.ZoneId, string), seq<string>>, faults: nat)
    | Rows(rows: Table, faults: nat)
    | Config(content: Option<string>, faults: nat)

  ghost function Recorded(a: PostAction): Record
    reads Footprint(a)
  {
    match a
    case DnsAction(u) => if u == null then Nowhere(0) else Zones(u.api.records, u.api.faults)
    case ControlPlaneAction(p) => Rows(p.service.repo.rows, p.service.repo.faults)
    case SshConfigAction(f) => Config(f.content, f.faults)
  }

  /** An action run for `target` leaves its place as it was, or changes just the target's entry. */
  ghost predicate Keeps(a: PostAction, was: Record, now: Record, target: Target, ip: string) {
    && now.faults >= was.faults
    && (now == was.(faults := now.faults) ||
        match a
        case DnsAction(u) => u != null && was.Zones? && now.Zones? &&
          CF.Repointed(was.records, now.records, u.TrueZone(target.dnsRecord), target.dnsRecord, ip)
        case ControlPlaneAction(p) => was.Rows? && now.Rows? && target.nodeId in was.rows &&
          now.rows == was.rows[target.nodeId := was.rows[target.nodeId].(address := ip)]
        case SshConfigAction(f) =>
          && was.Config? && now.Config? && was.content.Some? && now.content.Some?
          && SetHostName(was.content.value, target.sshHost, ip) == now.content)
  }

  /** Two actions that look after the same place. */
  ghost predicate SamePlace(a: PostAction, b: PostAction) {
    || (a.DnsAction? && b.DnsAction? && a.updater != null && b.updater != null && a.updater.api == b.updater.api)
    || (a.ControlPlaneAction? && b.ControlPlaneAction? && a.plane.service.repo == b.plane.service.repo)
    || (a.SshConfigAction? && b.SshConfigAction? && a.file == b.file)
  }

  /** `Says`, as a fact about the contents of the place. */
  ghost predicate SaysIn(a: PostAction, r: Record, target: Target, ip: string) {
    match a
    case DnsAction(u) =>
      && u != null && r.Zones?
      && var z := u.TrueZone(target.dnsRecord);
      z.Some? && (z.value, target.dnsRecord) in r.records
      && r.records[(z.value, target.dnsRecord)] != [] && r.records[(z.value, target.dnsRecord)][0] == ip
    case ControlPlaneAction(p) => r.Rows? && target.nodeId in r.rows && r.rows[target.nodeId].address == ip
    case SshConfigAction(f) => r.Config? && r.content.Some? && Lookup(r.content.value, target.sshHost) == Some(ip)
  }

  lemma {:induction false} SaysIsSaysIn(a: PostAction, target: Target, ip: string)
    ensures Says(a, target, ip) <==> SaysIn(a, Recorded(a), target, ip)
  {
  }

  /** Once a place says the address, running any action for the same target leaves it saying so. */
  lemma {:induction false} StillSays(a: PostAction, b: PostAction, was: Record, now: Record, target: Target, ip: string)
    requires SamePlace(a, b) && Keeps(a, was, now, target, ip) && SaysIn(b, was, target, ip)
    requires b.SshConfigAction? ==> Token(ip)
    ensures SaysIn(b, now, target, ip)
  {
    if b.SshConfigAction? && now.content != was.content {
      SetThenLookup(was.content.value, target.sshHost, ip);
    }
  }

  /** Running `a` for a target never undoes what `b` established for it. */
  lemma {:induction false} Survives(a: PostAction, b: PostAction, wasA: Record, nowA: Record, wasB: Record,
                                    nowB: Record, target: Target, ip: string)
    requires Keeps(a, wasA, nowA, target, ip)
    requires if SamePlace(a, b) then wasB == wasA && nowB == nowA else nowB == wasB
    requires SaysIn(b, wasB, target, ip) && (b.SshConfigAction? ==> Token(ip))
    ensures SaysIn(b, nowB, target, ip)
  {
    if SamePlace(a, b) {
      StillSays(a, b, wasA, nowA, target, ip);
    }
  }

  // ---------------------------------------------------------------- what other targets have

  /** In the contents `r`, what the action does for one target cannot touch what another has:
      they are known there by different names, and no Host line lists both aliases. */
  ghost predicate ApartIn(a: PostAction, r: Record, x: Target, y: Target) {
    match a
    case DnsAction(_) => x.dnsRecord != y.dnsRecord
    case ControlPlaneAction(_) => x.nodeId != y.nodeId
    case SshConfigAction(_) =>
      r.Config? && r.content.Some? && !Share(Split(r.content.value, '\n'), x.sshHost, y.sshHost)
  }

  /** What was done to the place for `target` kept apart what was apart, and left to the targets
      apart from it what they had there. */
  ghost predicate Spares(a: PostAction, was: Record, now: Record, target: Target) {
    && (forall x, y | ApartIn(a, was, x, y) :: ApartIn(a, now, x, y))
    && (forall other, ip | SaysIn(a, was, other, ip) && ApartIn(a, was, target, other) :: SaysIn(a, now, other, ip))
  }

  lemma {:induction false} KeepsApart(a: PostAction, b: PostAction, was: Record, now: Record, target: Target,
                                      ip: string, x: Target, y: Target)
    requires SamePlace(a, b) && Keeps(a, was, now, target, ip) && (b.SshConfigAction? ==> Token(ip))
    requires ApartIn(b, was, x, y)
    ensures ApartIn(b, now, x, y)
  {
    if b.SshConfigAction? && now.content != was.content && Share(Split(now.content.value, '\n'), x.sshHost, y.sshHost) {
      SetSharesNoMore(was.content.value, target.sshHost, ip, x.sshHost, y.sshHost);
    }
  }

  lemma {:induction false} KeepsOthers(a: PostAction, b: PostAction, was: Record, now: Record, target: Target,
                                       ip: string, other: Target, its: string)
    requires SamePlace(a, b) && Keeps(a, was, now, target, ip) && (b.SshConfigAction? ==> Token(ip))
    requires SaysIn(b, was, other, its) && ApartIn(b, was, target, other)
    ensures SaysIn(b, now, other, its)
  {
    if b.SshConfigAction? && now.content != was.content {
      SetKeepsOthers(was.content.value, target.sshHost, ip, other.sshHost);
    }
  }

  lemma {:induction false} RunSpares(a: PostAction, b: PostAction, wasA: Record, nowA: Record, wasB: Record,
                                     nowB: Record, target: Target, ip: string)
    requires Keeps(a, wasA, nowA, target, ip) && (b.SshConfigAction? ==> Token(ip))
    requires if SamePlace(a, b) then wasB == wasA && nowB == nowA else nowB == wasB
    ensures Spares(b, wasB, nowB, target)
  {
    if SamePlace(a, b) {
      forall x, y | ApartIn(b, wasB, x, y) ensures ApartIn(b, nowB, x, y) {
        KeepsApart(a, b, wasA, nowA, target, ip, x, y);
      }
      forall other, its | SaysIn(b, wasB, other, its) && ApartIn(b, wasB, target, other)
        ensures SaysIn(b, nowB, other, its)
      {
        KeepsOthers(a, b, wasA, nowA, target, ip, other, its);
      }
    }
  }

  lemma {:induction false} SparesTransitive(a: PostAction, r: Record, s: Record, t: Record, target: Target)
    requires Spares(a, r, s, target) && Spares(a, s, t, target)
    ensures Spares(a, r, t, target)
  {
  }

  /** Every place spared the targets apart from this one. */
  ghost predicate AllSpare(post: seq<PostAction>, was: seq<Record>, now: seq<Record>, target: Target)
    requires |post| == |was| == |now|
  {
    forall i | 0 <= i < |post| :: Spares(post[i], was[i], now[i], target)
  }

  lemma {:induction false} SparedNothing(post: seq<PostAction>, r: seq<Record>, target: Target)
    requires |post| == |r|
    ensures AllSpare(post, r, r, target)
  {
  }

  lemma {:induction false} SparedOnce(post: seq<PostAction>, n: nat, was: seq<Record>, mid: seq<Record>,
                                      now: seq<Record>, target: Target, ip: string)
    requires n < |post| == |was| == |mid| == |now| && Token(ip)
    requires AllSpare(post, was, mid, target) && Ran(post, n, mid, now, target, ip)
    ensures AllSpare(post, was, now, target)
  {
    forall i | 0 <= i < |post| ensures Spares(post[i], was[i], now[i], target) {
      RunSpares(post[n], post[i], mid[n], now[n], mid[i], now[i], target, ip);
      SparesTransitive(post[i], was[i], mid[i], now[i], target);
    }
  }

  /** The contents of every place, action by action. */
  ghost function Records(post: seq<PostAction>): (r: seq<Record>)
    reads FootprintOf(post)
    ensures |r| == |post| && forall i | 0 <= i < |post| :: r[i] == Recorded(post[i])
  {
    if post == [] then [] else
      assert FootprintOf(post[..|post| - 1]) <= FootprintOf(post);
      Records(post[..|post| - 1]) + [Recorded(post[|post| - 1])]
  }

  /** The first `n` actions that had something to do and did not fail have taken effect. */
  ghost predicate Done(post: seq<PostAction>, r: seq<Record>, n: nat, postErrors: set<string>, target: Target,
                       ip: string)
    requires n <= |post| == |r|
  {
    forall i | 0 <= i < n && Applies(post[i], target, ip) && Name(post[i]) !in postErrors
      && (post[i].SshConfigAction? ==> Token(ip)) :: SaysIn(post[i], r[i], target, ip)
  }

  /** Action `n` ran: its place moved as it may, and only what looks after the same place saw it. */
  ghost predicate Ran(post: seq<PostAction>, n: nat, was: seq<Record>, now: seq<Record>, target: Target, ip: string)
    requires n < |post| == |was| == |now|
  {
    && Keeps(post[n], was[n], now[n], target, ip)
    && forall i | 0 <= i < |post| ::
      if SamePlace(post[n], post[i]) then was[i] == was[n] && now[i] == now[n] else now[i] == was[i]
  }

  lemma {:induction false} DoneSurvives( post: seq<PostAction>, n: nat, was: seq<Record>, now: seq<Record>,
                                        postErrors: set<string>, target: Target, ip: string)
    requires n < |post| == |was| == |now|
    requires Ran(post, n, was, now, target, ip) && Done(post, was, n, postErrors, target, ip)
    ensures Done(post, now, n, postErrors, target, ip)
  {
    forall i | 0 <= i < n && Applies(post[i], target, ip) && Name(post[i]) !in postErrors
      && (post[i].SshConfigAction? ==> Token(ip))
      ensures SaysIn(post[i], now[i], target, ip)
    {
      Survives(post[n], post[i], was[n], now[n], was[i], now[i], target, ip);
    }
  }

  ghost predicate AllReady(post: seq<PostAction>)
    reads FootprintOf(post)
  {
    forall i | 0 <= i < |post| :: Ready(post[i])
  }

  method RunOne(post: seq<PostAction>, n: nat, target: Target, newIP: string) returns (ok: bool)
    requires n < |post| && AllReady(post)
    modifies FootprintOf(post)
    ensures AllReady(post) && (ok <==> Worked(post, n, old(Records(post)), Records(post), target, newIP))
    ensures !ok ==> Applies(post[n], target, newIP)
    ensures Ran(post, n, old(Records(post)), Records(post), target, newIP)
    ensures ok && Applies(post[n], target, newIP) && (post[n].SshConfigAction? ==> Token(newIP)) ==>
      SaysIn(post[n], Records(post)[n], target, newIP)
  {
    ghost var was := Records(post);
    var a := post[n];
    ok := Apply(a, target, newIP);
    forall i | 0 <= i < |post|
      ensures if SamePlace(a, post[i]) then was[i] == was[n] && Recorded(post[i]) == Recorded(a)
              else Recorded(post[i]) == was[i]
    {
      if post[i].DnsAction? && !SamePlace(a, post[i]) && post[i].updater != null {
        assert post[i].updater.api !in Footprint(a);
      }
    }
    SaysIsSaysIn(a, target, newIP);
  }

  /** Every action that had something to do and is not among the errors has taken effect. */
  ghost predicate Effective(post: seq<PostAction>, postErrors: set<string>, target: Target, ip: string)
    reads FootprintOf(post)
  {
    forall i | 0 <= i < |post| && Applies(post[i], target, ip) && Name(post[i]) !in postErrors
      && (post[i].SshConfigAction? ==> Token(ip)) :: Says(post[i], target, ip)
  }

  /** Action `n`, run between these two states, was possible, and no call it made went wrong. */
  ghost predicate Worked(post: seq<PostAction>, n: nat, was: seq<Record>, now: seq<Record>, target: Target, ip: string)
    requires n < |post| == |was| == |now|
  {
    Possible(post[n], was[n], target, ip) && now[n].faults == was[n].faults
  }

  /** An action of this name, among the first `n`, could not succeed: it was not possible, or a call
      to its place went wrong. */
  ghost predicate Blames(post: seq<PostAction>, was: seq<Record>, now: seq<Record>, n: nat, name: string,
                         target: Target, ip: string)
    requires n <= |post| == |was| == |now|
  {
    exists i :: 0 <= i < n && Name(post[i]) == name && Blamable(post, was, now, i, target, ip)
  }

  ghost predicate Blamable(post: seq<PostAction>, was: seq<Record>, now: seq<Record>, i: nat, target: Target,
                           ip: string)
    requires i < |post| == |was| == |now|
  {
    Applies(post[i], target, ip) && !Worked(post, i, was, now, target, ip)
  }

  /** A call to place `i` went wrong in an action that is among the errors. */
  ghost predicate Owned(post: seq<PostAction>, n: nat, i: nat, postErrors: set<string>)
    requires n <= |post| && i < |post|
  {
    exists k :: 0 <= k < n && SamePlace(post[k], post[i]) && Name(post[k]) in postErrors
  }

  /** The errors of the first `n` actions, exactly: each is that of an action that could not succeed;
      an action that was not possible is among them; and a call that went wrong is that of one. */
  ghost predicate Exact(post: seq<PostAction>, was: seq<Record>, now: seq<Record>, n: nat, postErrors: set<string>,
                        target: Target, ip: string)
    requires n <= |post| == |was| == |now|
  {
    && (forall e | e in postErrors :: Blames(post, was, now, n, e, target, ip))
    && (forall i | 0 <= i < n && !Possible(post[i], was[i], target, ip) :: Name(post[i]) in postErrors)
    && (forall i | 0 <= i < |post| && now[i].faults > was[i].faults :: Owned(post, n, i, postErrors))
  }

  /** What was possible still is, and what was not still is not. */
  ghost predicate StillPossible(post: seq<PostAction>, was: seq<Record>, now: seq<Record>, target: Target, ip: string)
    requires |post| == |was| == |now|
  {
    forall i | 0 <= i < |post| ::
      && now[i].faults >= was[i].faults
      && (Possible(post[i], now[i], target, ip) <==> Possible(post[i], was[i], target, ip))
  }

  lemma {:induction false} PossibleStays(a: PostAction, b: PostAction, was: Record, now: Record, target: Target,
                                         ip: string)
    requires SamePlace(a, b) && Keeps(a, was, now, target, ip)
    ensures Possible(b, now, target, ip) <==> Possible(b, was, target, ip)
  {
    if b.SshConfigAction? && was.Config? && now.Config? && now.content != was.content {
      SetCanBeRepeated(was.content.value, target.sshHost, ip, ip);
    }
  }

  lemma {:induction false} StillPossibleOnce(post: seq<PostAction>, n: nat, was: seq<Record>, mid: seq<Record>,
                                             now: seq<Record>, target: Target, ip: string)
    requires n < |post| == |was| == |mid| == |now|
    requires StillPossible(post, was, mid, target, ip) && Ran(post, n, mid, now, target, ip)
    ensures StillPossible(post, was, now, target, ip)
  {
    hide Possible, Keeps;
    forall i | 0 <= i < |post|
      ensures now[i].faults >= mid[i].faults
      ensures Possible(post[i], now[i], target, ip) <==> Possible(post[i], mid[i], target, ip)
    {
      FaultsGrow(post[n], mid[n], now[n], target, ip);
      if SamePlace(post[n], post[i]) {
        PossibleStays(post[n], post[i], mid[n], now[n], target, ip);
      }
    }
  }

  lemma {:induction false} FaultsGrow(a: PostAction, was: Record, now: Record, target: Target, ip: string)
    requires Keeps(a, was, now, target, ip)
    ensures now.faults >= was.faults
  {
  }

  /** One more action, failed exactly if it did not work. */
  lemma {:induction false} ExactGrows(post: seq<PostAction>, was: seq<Record>, mid: seq<Record>, now: seq<Record>,
                                      n: nat, postErrors: set<string>, ok: bool, target: Target, ip: string)
    requires n < |post| == |was| == |mid| == |now| && Exact(post, was, mid, n, postErrors, target, ip)
    requires StillPossible(post, was, mid, target, ip) && Ran(post, n, mid, now, target, ip)
    requires (ok <==> Worked(post, n, mid, now, target, ip)) && (!ok ==> Applies(post[n], target, ip))
    ensures Exact(post, was, now, n + 1, postErrors + if ok then {} else {Name(post[n])}, target, ip)
  {
    hide Possible, Keeps, Blamable, Worked, SamePlace, Name, Applies;
    var errors := postErrors + if ok then {} else {Name(post[n])};
    PossibleIfIdle(post[n], was[n], target, ip);
    BlamesGrow(post, was, mid, now, n, ok, target, ip);
    forall e | e in errors ensures Blames(post, was, now, n + 1, e, target, ip) {
      if e in postErrors {
        var i :| 0 <= i < n && Name(post[i]) == e && Blamable(post, was, mid, i, target, ip);
        assert Blamable(post, was, now, i, target, ip);
      }
    }
    forall i | 0 <= i < |post| && now[i].faults > was[i].faults ensures Owned(post, n + 1, i, errors) {
      if mid[i].faults > was[i].faults {
        var k :| 0 <= k < n && SamePlace(post[k], post[i]) && Name(post[k]) in postErrors;
        assert SamePlace(post[k], post[i]) && Name(post[k]) in errors;
      } else {
        assert SamePlace(post[n], post[i]) && Name(post[n]) in errors;
      }
    }
  }

  lemma {:induction false} BlamesGrow(post: seq<PostAction>, was: seq<Record>, mid: seq<Record>, now: seq<Record>,
                                      n: nat, ok: bool, target: Target, ip: string)
    requires n < |post| == |was| == |mid| == |now|
    requires StillPossible(post, was, mid, target, ip) && Ran(post, n, mid, now, target, ip)
    requires (ok <==> Worked(post, n, mid, now, target, ip)) && (!ok ==> Applies(post[n], target, ip))
    ensures forall i | 0 <= i < |post| :: now[i].faults >= mid[i].faults >= was[i].faults
    ensures forall i | 0 <= i < n && Blamable(post, was, mid, i, target, ip) :: Blamable(post, was, now, i, target, ip)
    ensures if ok then now[n].faults == mid[n].faults else Blamable(post, was, now, n, target, ip)
    ensures !Possible(post[n], was[n], target, ip) ==> !ok
  {
    hide Possible, Keeps;
    forall i | 0 <= i < |post| ensures now[i].faults >= mid[i].faults {
      FaultsGrow(post[n], mid[n], now[n], target, ip);
    }
  }

  lemma {:induction false} PossibleIfIdle(a: PostAction, was: Record, target: Target, ip: string)
    ensures !Possible(a, was, target, ip) ==> Applies(a, target, ip)
  {
  }

  lemma {:induction false} NothingFailed(post: seq<PostAction>, r: seq<Record>, target: Target, ip: string)
    requires |post| == |r|
    ensures Exact(post, r, r, 0, {}, target, ip) && StillPossible(post, r, r, target, ip)
  {
  }

  /** How far a run of the actions has come, `n` of them, from the places `was`. */
  ghost predicate Progress(post: seq<PostAction>, was: seq<Record>, now: seq<Record>, n: nat, postErrors: set<string>,
                           target: Target, ip: string)
    requires n <= |post| == |was| == |now|
  {
    && Done(post, now, n, postErrors, target, ip)
    && Exact(post, was, now, n, postErrors, target, ip) && StillPossible(post, was, now, target, ip)
    && (Token(ip) ==> AllSpare(post, was, now, target))
  }

  lemma {:induction false} ProgressGrows(post: seq<PostAction>, was: seq<Record>, mid: seq<Record>, now: seq<Record>,
                                         n: nat, postErrors: set<string>, ok: bool, target: Target, ip: string)
    requires n < |post| == |was| == |mid| == |now| && Progress(post, was, mid, n, postErrors, target, ip)
    requires Ran(post, n, mid, now, target, ip) && (ok <==> Worked(post, n, mid, now, target, ip))
    requires !ok ==> Applies(post[n], target, ip)
    requires ok && Applies(post[n], target, ip) && (post[n].SshConfigAction? ==> Token(ip)) ==>
               SaysIn(post[n], now[n], target, ip)
    ensures Progress(post, was, now, n + 1, postErrors + if ok then {} else {Name(post[n])}, target, ip)
  {
    hide Ran, AllSpare, SaysIn, Exact, StillPossible, Worked;
    DoneSurvives(post, n, mid, now, postErrors, target, ip);
    ExactGrows(post, was, mid, now, n, postErrors, ok, target, ip);
    StillPossibleOnce(post, n, was, mid, now, target, ip);
    if Token(ip) {
      SparedOnce(post, n, was, mid, now, target, ip);
    }
  }

  /** So an action that was possible at the start, and to whose place no call went wrong, is not among
      the errors, unless another of its name is. */
  lemma {:induction false} WorkedIsNoError(post: seq<PostAction>, was: seq<Record>, now: seq<Record>,
                                           postErrors: set<string>, target: Target, ip: string, i: nat)
    requires |post| == |was| == |now| && Progress(post, was, now, |post|, postErrors, target, ip)
    requires i < |post| && (Applies(post[i], target, ip) ==> Worked(post, i, was, now, target, ip))
    ensures Name(post[i]) in postErrors ==>
              exists k :: 0 <= k < |post| && k != i && Name(post[k]) == Name(post[i])
                && Blamable(post, was, now, k, target, ip)
  {
  }

  lemma {:induction false} DoneIsEffective(post: seq<PostAction>, postErrors: set<string>, target: Target, ip: string)
    requires Done(post, Records(post), |post|, postErrors, target, ip)
    ensures Effective(post, postErrors, target, ip)
  {
    forall i | 0 <= i < |post| && SaysIn(post[i], Recorded(post[i]), target, ip)
      ensures Says(post[i], target, ip)
    {
      SaysIsSaysIn(post[i], target, ip);
    }
  }

  /** Runs every action in turn; the names of those that failed are collected. */
  method RunAll(post: seq<PostAction>, target: Target, newIP: string) returns (postErrors: set<string>)
    requires AllReady(post)
    modifies FootprintOf(post)
    ensures AllReady(post) && Effective(post, postErrors, target, newIP)
    ensures Progress(post, old(Records(post)), Records(post), |post|, postErrors, target, newIP)
  {
    hide Ran, AllSpare, Effective, SaysIn, Exact, StillPossible, Worked;
    NothingFailed(post, Records(post), target, newIP);
    SparedNothing(post, Records(post), target);
    postErrors := {};
    for n := 0 to |post|
      invariant AllReady(post) && Progress(post, old(Records(post)), Records(post), n, postErrors, target, newIP)
    {
      ghost var was, errors := Records(post), postErrors;
      var ok := RunOne(post, n, target, newIP);
      if !ok {
        postErrors := postErrors + {Name(post[n])};
      }
      ProgressGrows(post, old(Records(post)), was, Records(post), n, errors, ok, target, newIP);
      assert postErrors == errors + if ok then {} else {Name(post[n])};
    }
    DoneIsEffective(post, postErrors, target, newIP);
  }
}
