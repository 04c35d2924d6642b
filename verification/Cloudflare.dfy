/** DNS records through the Cloudflare API: find the zone holding a name, then point its A
    record at an address. */
module Cloudflare {
  import opened Common
  import opened Text

  datatype Error = TokenMissing | ApiFailed | NoZone

  type ZoneId = string

  /** The remote side: a fixed directory of zones, and per zone and name the contents of its
      A records in listing order. `faults` counts the calls that failed; a failed write may or
      may not have been applied. */
  class Api {
    const zones: map<string, ZoneId>
    var records: map<(ZoneId, string), seq<string>>
    ghost var faults: nat

    constructor (zones: map<string, ZoneId>, records: map<(ZoneId, string), seq<string>>)
      ensures this.zones == zones && this.records == records && faults == 0
    {
      this.zones, this.records, this.faults := zones, records, 0;
    }

    ghost function At(zone: ZoneId, name: string): seq<string>
      reads this
    {
      if (zone, name) in records then records[(zone, name)] else []
    }

    method ListZones(name: string) returns (r: Result<seq<ZoneId>, Error>)
      modifies this`faults
      ensures r == if faults > old(faults) then Failure(ApiFailed)
                   else Success(if name in zones then [zones[name]] else [])
      ensures faults >= old(faults)
    {
      var up := *;
      if !up {
        faults := faults + 1;
        return Failure(ApiFailed);
      }
      r := Success(if name in zones then [zones[name]] else []);
    }

    method ListRecords(zone: ZoneId, name: string) returns (r: Result<seq<string>, Error>)
      modifies this`faults
      ensures r == if faults == old(faults) then Success(At(zone, name)) else Failure(ApiFailed)
      ensures faults >= old(faults)
    {
      var up := *;
      if !up {
        faults := faults + 1;
        return Failure(ApiFailed);
      }
      r := Success(if (zone, name) in records then records[(zone, name)] else []);
    }

    /** Appends a record, or overwrites the first one. */
    method Write(zone: ZoneId, name: string, ip: string, create: bool) returns (err: Option<Error>)
      requires !create ==> At(zone, name) != []
      modifies this
      ensures err == if faults == old(faults) then None else Some(ApiFailed)
      ensures faults >= old(faults)
      ensures records == old(records)
              || records == old(records)[(zone, name) := Written(old(At(zone, name)), ip, create)]
      ensures err.None? ==> records == old(records)[(zone, name) := Written(old(At(zone, name)), ip, create)]
    {
      var up, applied := *, *;
      if up || applied {
        var was := if (zone, name) in records then records[(zone, name)] else [];
        records := records[(zone, name) := Written(was, ip, create)];
      }
      if !up {
        faults := faults + 1;
        return Some(ApiFailed);
      }
      err := None;
    }
  }

  function Written(was: seq<string>, ip: string, create: bool): seq<string>
    requires !create ==> was != []
  {
    if create then was + [ip] else [ip] + was[1..]
  }

  // ---------------------------------------------------------------- zones

  function TrimDot(fqdn: string): string {
    if fqdn != "" && fqdn[|fqdn| - 1] == '.' then fqdn[..|fqdn| - 1] else fqdn
  }

  /** The domain made of the labels from `i` on. */
  function Parent(labels: seq<string>, i: nat): string
    requires i < |labels|
  {
    Join(labels[i..], '.')
  }

  /** The uncached walk: the first parent from `i` on, of at least two labels, that is a zone. */
  function WalkFrom(zones: map<string, ZoneId>, labels: seq<string>, i: nat): Option<ZoneId>
    requires i <= |labels|
    decreases |labels| - i
  {
    if i + 1 >= |labels| then None
    else if Parent(labels, i) in zones then Some(zones[Parent(labels, i)])
    else WalkFrom(zones, labels, i + 1)
  }

  function ZoneOf(zones: map<string, ZoneId>, fqdn: string): Option<ZoneId> {
    WalkFrom(zones, Split(TrimDot(fqdn), '.'), 0)
  }

  /** The walk finds the longest parent of at least two labels that is a zone, and fails
      exactly when there is none. */
  lemma {:induction false} WalkFindsTheLongest(zones: map<string, ZoneId>, labels: seq<string>, i: nat)
    requires i <= |labels|
    ensures WalkFrom(zones, labels, i).None? <==> forall k | i <= k && k + 1 < |labels| :: Parent(labels, k) !in zones
    ensures WalkFrom(zones, labels, i).Some? ==>
      exists k :: i <= k && k + 1 < |labels| && Parent(labels, k) in zones
        && WalkFrom(zones, labels, i) == Some(zones[Parent(labels, k)])
        && forall j | i <= j < k :: Parent(labels, j) !in zones
    decreases |labels| - i
  {
    if i + 1 < |labels| && Parent(labels, i) !in zones {
      WalkFindsTheLongest(zones, labels, i + 1);
    }
  }

  /** The zone of a name is that of its longest parent of two or more labels that is one, the name
      itself included, a trailing dot aside. */
  lemma {:induction false} ZoneOfIsTheLongest(zones: map<string, ZoneId>, name: string, z: ZoneId)
    requires name == "" || name[|name| - 1] != '.'
    ensures ZoneOf(zones, name + ".") == ZoneOf(zones, name)
    ensures var labels := Split(name, '.');
            ZoneOf(zones, name) == Some(z) <==>
              exists k :: LongestAt(zones, labels, k) && zones[Join(labels[k..], '.')] == z
    ensures '.' in name && name in zones ==> ZoneOf(zones, name) == Some(zones[name])
  {
    var labels := Split(name, '.');
    assert (name + ".")[..|name|] == name;
    WalkFindsTheLongest(zones, labels, 0);
    if ZoneOf(zones, name) == Some(z) {
      var k :| 0 <= k && k + 1 < |labels| && Parent(labels, k) in zones
        && WalkFrom(zones, labels, 0) == Some(zones[Parent(labels, k)])
        && forall j | 0 <= j < k :: Parent(labels, j) !in zones;
      assert forall j | 0 <= j < k :: Parent(labels, j) == Join(labels[j..], '.');
      assert LongestAt(zones, labels, k);
    }
    if exists k :: LongestAt(zones, labels, k) && zones[Join(labels[k..], '.')] == z {
      var k :| LongestAt(zones, labels, k) && zones[Join(labels[k..], '.')] == z;
      WalkReaches(zones, labels, 0, k);
    }
    JoinSplit(name, '.');
    assert labels[0..] == labels;
    OneLabelHasNoDot(name);
  }

  lemma {:induction false} OneLabelHasNoDot(name: string)
    ensures |Split(name, '.')| == 1 ==> '.' !in name
  {
    JoinSplit(name, '.');
  }

  ghost predicate LongestAt(zones: map<string, ZoneId>, labels: seq<string>, k: int) {
    && 0 <= k && k + 1 < |labels| && Join(labels[k..], '.') in zones
    && forall j | 0 <= j < k :: Join(labels[j..], '.') !in zones
  }

  lemma {:induction false} WalkReaches(zones: map<string, ZoneId>, labels: seq<string>, i: nat, k: nat)
    requires i <= k && LongestAt(zones, labels, k)
    ensures WalkFrom(zones, labels, i) == Some(zones[Join(labels[k..], '.')])
    decreases k - i
  {
    if i < k {
      assert Parent(labels, i) == Join(labels[i..], '.');
      WalkReaches(zones, labels, i + 1, k);
    }
  }

  /** At most the named record set changed: it got its first record, or had it overwritten. */
  ghost predicate Repointed(was: map<(ZoneId, string), seq<string>>, now: map<(ZoneId, string), seq<string>>,
                            zone: Option<ZoneId>, name: string, ip: string) {
    || now == was
    || (zone.Some? &&
          var key := (zone.value, name);
          now == was[key := if key in was && was[key] != [] then Written(was[key], ip, false) else [ip]])
  }

  class Cloudflare {
    const api: Api
    const token: string
    const zoneId: ZoneId      // looked up from the record name when empty
    var zoneCache: map<string, ZoneId>

    constructor (api: Api, token: string, zoneId: ZoneId)
      ensures this.api == api && this.token == token && this.zoneId == zoneId && Valid()
    {
      this.api, this.token, this.zoneId, this.zoneCache := api, token, zoneId, map[];
    }

    /** The cache holds only true facts of the directory. */
    ghost predicate Valid()
      reads this
    {
      forall name | name in zoneCache :: name in api.zones && zoneCache[name] == api.zones[name]
    }

    /** The zone a lookup of `fqdn` is entitled to find, cache or no cache. */
    ghost function TrueZone(fqdn: string): Option<ZoneId> {
      if zoneId != "" then Some(zoneId) else ZoneOf(api.zones, fqdn)
    }

    method ZoneFor(fqdn: string) returns (r: Result<ZoneId, Error>)
      requires Valid()
      modifies this`zoneCache, api`faults
      ensures Valid() && old(zoneCache.Keys) <= zoneCache.Keys && api.faults >= old(api.faults)
      ensures r == if api.faults > old(api.faults) then Failure(ApiFailed)
                   else match TrueZone(fqdn) case None => Failure(NoZone) case Some(z) => Success(z)
    {
      if zoneId != "" {
        return Success(zoneId);
      }
      var labels := Split(TrimDot(fqdn), '.');
      var i := 0;
      while i + 1 < |labels|
        invariant 0 <= i <= |labels|
        invariant Valid() && old(zoneCache.Keys) <= zoneCache.Keys && api.faults == old(api.faults)
        invariant ZoneOf(api.zones, fqdn) == WalkFrom(api.zones, labels, i)
      {
        var candidate := Join(labels[i..], '.');
        if candidate in zoneCache {
          return Success(zoneCache[candidate]);
        }
        var zones := api.ListZones(candidate);
        if zones.Failure? {
          return Failure(zones.error);
        }
        if |zones.value| > 0 {
          zoneCache := zoneCache[candidate := zones.value[0]];
          return Success(zones.value[0]);
        }
        i := i + 1;
      }
      r := Failure(NoZone);
    }

    /** `fqdn` is pointed at `ip`: its zone's first A record for the name says so. */
    ghost predicate Points(fqdn: string, ip: string)
      reads api
    {
      var z := TrueZone(fqdn);
      z.Some? && api.At(z.value, fqdn) != [] && api.At(z.value, fqdn)[0] == ip
    }

    /** Points `fqdn` at `ip`, creating the A record when there is none. */
    method Upsert(fqdn: string, ip: string) returns (err: Option<Error>)
      requires Valid()
      modifies this`zoneCache, api
      ensures Valid()
      ensures err == if token == "" then Some(TokenMissing)
                     else if api.faults > old(api.faults) then Some(ApiFailed)
                     else if TrueZone(fqdn).None? then Some(NoZone) else None
      ensures api.faults >= old(api.faults)
      ensures token == "" || TrueZone(fqdn).None? ==> api.records == old(api.records)
      ensures err.None? ==> Points(fqdn, ip)
      ensures old(Points(fqdn, ip)) ==> Points(fqdn, ip)
      ensures Repointed(old(api.records), api.records, TrueZone(fqdn), fqdn, ip)
    {
      if token == "" {
        return Some(TokenMissing);
      }
      var zone := ZoneFor(fqdn);
      if zone.Failure? {
        return Some(zone.error);
      }
      var existing := api.ListRecords(zone.value, fqdn);
      if existing.Failure? {
        return Some(existing.error);
      }
      assert Written([], ip, true) == [ip];
      if existing.value == [] {
        err := api.Write(zone.value, fqdn, ip, true);
      } else if existing.value[0] == ip {
        return None;
      } else {
        err := api.Write(zone.value, fqdn, ip, false);
      }
    }
  }
}
