/** The one-pass aggregation of a parsed log, and the hourly timeline drawn from it. */
module LogAnalyzer {
  import opened Common
  import opened Grouping
  import opened LogReport
  import Sites

  class Aggregator {
    const rules: Rules
    var sites: map<string, Site>
    var siteMeta: map<string, Option<Meta>>
    var hourlyTotal: Counter<int>
    var hourlyByCategory: map<int, Counter<string>>
    var ports: Counter<nat>
    var networks: Counter<string>
    var outbounds: Counter<string>
    var clients: map<string, Client>
    var rejected: seq<Event>

    ghost function Snapshot(): Tables
      reads this
    {
      Tables(sites, siteMeta, hourlyTotal, hourlyByCategory, ports, networks, outbounds, clients, rejected)
    }

    constructor (rules: Rules)
      ensures this.rules == rules && Snapshot() == EMPTY
    {
      this.rules := rules;
      sites, siteMeta, hourlyTotal, hourlyByCategory := map[], map[], map[], map[];
      ports, networks, outbounds, clients, rejected := map[], map[], map[], map[], [];
    }

    method AddToSite(e: Event)
      modifies this`sites
      ensures Snapshot() == Visited(old(Snapshot()), e, rules)
    {
      var domain := rules.site(e.host);
      var bucket := Fill(if domain in sites then sites[domain] else NEW_SITE, e);
      sites := sites[domain := bucket];
    }

    method AddToClient(e: Event)
      modifies this`clients
      ensures Snapshot() == Attributed(old(Snapshot()), e, rules)
    {
      var who := Identify(e);
      var client := if who in clients then clients[who] else NEW_CLIENT;
      client := client.(connections := client.connections + 1, sites := client.sites + {rules.site(e.host)});
      if e.email != "" {
        client := client.(emails := client.emails + {e.email});
      }
      var first, last := Widen(client.first, client.last, e.when);
      clients := clients[who := client.(first := first, last := last)];
    }

    method Classify(e: Event)
      modifies this`siteMeta, this`hourlyByCategory
      ensures Snapshot() == Classified(old(Snapshot()), e, rules)
    {
      var domain, hour := rules.site(e.host), Hour(e);
      var meta := rules.classify(domain, e.host);
      siteMeta := siteMeta[domain := Some(meta)];
      if e.port == 53 {
        meta := Meta(meta.title, "system", "background");
        siteMeta := siteMeta[domain := Some(meta)];
      }
      var counts := if hour in hourlyByCategory then hourlyByCategory[hour] else map[];
      hourlyByCategory := hourlyByCategory[hour := Bump(counts, meta.category)];
    }

    method Tick(e: Event)
      modifies this`hourlyTotal, this`ports, this`networks, this`outbounds, this`rejected
      ensures Snapshot() == Ticked(old(Snapshot()), e)
    {
      hourlyTotal := Bump(hourlyTotal, Hour(e));
      ports := Bump(ports, e.port);
      networks := Bump(networks, e.network);
      outbounds := Bump(outbounds, if e.outbound != "" then e.outbound else "unknown");
      if e.refused || e.outbound == "block" {
        rejected := rejected + [e];
      }
    }

    /** One event through every table. */
    method Add(e: Event)
      modifies this
      ensures Snapshot() == Added(old(Snapshot()), e, rules)
    {
      Classify(e);
      AddToSite(e);
      Tick(e);
      AddToClient(e);
    }

    /** A continuous hourly axis from the first event's hour to the last one's: one slot per
        hour, quiet ones included, read from the hourly tables. */
    method Timeline(events: seq<Event>) returns (timeline: seq<Slot>)
      ensures |timeline| == if events == [] || Hour(events[0]) > Hour(events[|events| - 1]) then 0
                            else Hour(events[|events| - 1]) - Hour(events[0]) + 1
      ensures forall i | 0 <= i < |timeline| ::
        timeline[i] == Slot(Hour(events[0]) + i, Get(hourlyTotal, Hour(events[0]) + i),
                            Find(hourlyByCategory, Hour(events[0]) + i, map[]))
    {
      timeline := [];
      if events == [] {
        return;
      }
      var start, end := Hour(events[0]), Hour(events[|events| - 1]);
      var cursor := start;
      while cursor <= end
        invariant cursor == start + |timeline| && (start <= end ==> cursor <= end + 1)
        invariant start > end ==> timeline == []
        invariant forall i | 0 <= i < |timeline| ::
          timeline[i] == Slot(start + i, Get(hourlyTotal, start + i), Find(hourlyByCategory, start + i, map[]))
      {
        timeline := timeline + [Slot(cursor, Get(hourlyTotal, cursor), Find(hourlyByCategory, cursor, map[]))];
        cursor := cursor + 1;
      }
    }
  }

  /** Whom a connection is attributed to. */
  method Identify(e: Event) returns (who: string)
    ensures who == Who(e)
  {
    who := e.email;
    if who == "" {
      who := e.source;
    }
    if who == "" {
      who := "unknown";
    }
  }

  /** The first and last times, widened to include `when`. */
  method Widen(first: Option<int>, last: Option<int>, when: int) returns (f: Option<int>, l: Option<int>)
    ensures f == Earlier(first, when) && l == Later(last, when)
  {
    f, l := first, last;
    if f.None? || when < f.value {
      f := Some(when);
    }
    if l.None? || when > l.value {
      l := Some(when);
    }
  }

  /** One event into its site's bucket. */
  method Fill(site: Site, e: Event) returns (bucket: Site)
    ensures bucket == WithEvent(site, e)
  {
    var outs, bad := site.outbounds, site.rejected;
    if e.outbound != "" {
      outs := Bump(outs, e.outbound);
    }
    var who := Identify(e);
    var first, last := Widen(site.first, site.last, e.when);
    if e.refused || e.outbound == "block" {
      bad := bad + 1;
    }
    bucket := Site(site.connections + 1, bad, Bump(site.hosts, e.host), Bump(site.ports, e.port),
                   Bump(site.networks, e.network),
                   outs, Bump(site.clients, who), Bump(site.hourly, Hour(e)), first, last);
  }

  lemma {:induction false} AxisIsTimeline( timeline: seq<Slot>, es: seq<Event>, rules: Rules, start: int,
                                          hourly: Counter<int>, categories: map<int, Counter<string>>)
    requires hourly == Counts(es, Hour) && categories == CategoryTable(es, rules)
    requires forall i | 0 <= i < |timeline| ::
               timeline[i] == Slot(start + i, Get(hourly, start + i), Find(categories, start + i, map[]))
    ensures IsTimeline(timeline, es, start, rules)
  {
    forall i | 0 <= i < |timeline|
      ensures timeline[i]
              == Slot(start + i, |Group(es, Hour, start + i)|, Counts(Group(es, Hour, start + i), Category(rules)))
    {
      SlotReadsTables(es, rules, start + i);
    }
  }

  lemma {:induction false} SlotReadsTables(es: seq<Event>, rules: Rules, hour: int)
    ensures Get(Counts(es, Hour), hour) == |Group(es, Hour, hour)|
    ensures Find(CategoryTable(es, rules), hour, map[]) == Counts(Group(es, Hour, hour), Category(rules))
  {
    CountsAreGroupSizes(es, Hour, hour);
    CategoriesAreGroups(es, rules);
    GroupedGet(CategoryTable(es, rules), es, Hour, CategoriesOf(rules), hour);
  }

  lemma {:induction false} AxisBalances(
      timeline: seq<Slot>, es: seq<Event>, rules: Rules, hourly: Counter<int>, categories: map<int, Counter<string>>)
    requires hourly == Counts(es, Hour) && categories == CategoryTable(es, rules) && Sorted(es) && es != []
    requires |timeline| == Hour(es[|es| - 1]) - Hour(es[0]) + 1
    requires forall i | 0 <= i < |timeline| ::
               timeline[i] == Slot(Hour(es[0]) + i, Get(hourly, Hour(es[0]) + i),
                                   Find(categories, Hour(es[0]) + i, map[]))
    ensures SumSlots(timeline) == |es|
  {
    AxisIsTimeline(timeline, es, rules, Hour(es[0]), hourly, categories);
    TimelinePartitionsEvents(timeline, es, rules, 0);
  }

  lemma {:induction false} TimelineBalances(timeline: seq<Slot>, es: seq<Event>, rules: Rules, r: Tables)
    requires r == Report(es, rules) && Sorted(es) && es != []
    requires |timeline| == Hour(es[|es| - 1]) - Hour(es[0]) + 1
    requires forall i | 0 <= i < |timeline| ::
               timeline[i] == Slot(Hour(es[0]) + i, Get(r.hourlyTotal, Hour(es[0]) + i),
                                   Find(r.hourlyByCategory, Hour(es[0]) + i, map[]))
    ensures SumSlots(timeline) == |es|
  {
    ReportTables(es, rules);
    AxisBalances(timeline, es, rules, r.hourlyTotal, r.hourlyByCategory);
  }

  lemma {:induction false} TablesBalance(es: seq<Event>, rules: Rules, r: Tables)
    requires r == Report(es, rules)
    ensures SumOver(r.sites.Keys, WeightIn(r.sites, ConnectionsOf)) == |es|
    ensures SumOver(r.sites.Keys, WeightIn(r.sites, RejectionsOf)) == |r.rejected|
    ensures SumOver(r.clients.Keys, WeightIn(r.clients, ClientConnectionsOf)) == |es|
    ensures Total(r.ports) == Total(r.networks) == Total(r.outbounds) == Total(r.hourlyTotal) == |es|
  {
    ReportTables(es, rules);
    SitesPartitionEvents(es, rules);
    ClientsPartitionEvents(es, rules);
    CounterTotal(es, Port);
    CounterTotal(es, Network);
    CounterTotal(es, OutboundOrUnknown);
    CounterTotal(es, Hour);
  }

  lemma {:induction false} SortedHours(es: seq<Event>)
    requires Sorted(es) && es != []
    ensures Hour(es[0]) <= Hour(es[|es| - 1])
  {
  }

  /** Sorts a log by time and aggregates it: its sites' connections, its clients' and its timeline
      each account for every event. */
  method Analyze(log: seq<Event>, rules: Rules) returns (a: Aggregator, timeline: seq<Slot>)
    ensures a.rules == rules && a.Snapshot() == Report(SortByTime(log), rules)
    ensures SumOver(a.sites.Keys, WeightIn(a.sites, ConnectionsOf)) == |log|
    ensures SumOver(a.sites.Keys, WeightIn(a.sites, RejectionsOf)) == |a.rejected|
    ensures SumOver(a.clients.Keys, WeightIn(a.clients, ClientConnectionsOf)) == |log|
    ensures Total(a.ports) == Total(a.networks) == Total(a.outbounds) == Total(a.hourlyTotal) == |log|
    ensures SumSlots(timeline) == |log|
  {
    var events := SortByTime(log);
    SortOrders(log, 0);
    a := Aggregate(events, rules);
    timeline := a.Timeline(events);
    TablesBalance(events, rules, a.Snapshot());
    if events != [] {
      SortedHours(events);
      TimelineBalances(timeline, events, rules, a.Snapshot());
    }
  }

  method Aggregate(events: seq<Event>, rules: Rules) returns (a: Aggregator)
    ensures a.rules == rules && a.Snapshot() == Report(events, rules)
  {
    a := new Aggregator(rules);
    for i := 0 to |events|
      invariant fresh(a) && a.rules == rules && a.Snapshot() == Report(events[..i], rules)
    {
      a.Add(events[i]);
      ReportSnoc(events[..i], events[i], rules);
      PrefixGrows(events, i);
    }
    assert events[..|events|] == events;
  }

  /** With hosts grouped by their registrable domain. */
  method AnalyzeBySite(log: seq<Event>, classify: (string, string) -> Meta) returns (a: Aggregator, timeline: seq<Slot>)
    ensures a.Snapshot() == Report(SortByTime(log), Rules(Sites.SiteFor, classify)) && SumSlots(timeline) == |log|
    ensures forall e | e in log :: Sites.SiteFor(e.host) in a.sites
  {
    var rules := Rules(Sites.SiteFor, classify);
    a, timeline := Analyze(log, rules);
    ReportTables(SortByTime(log), rules);
    forall e | e in log ensures Sites.SiteFor(e.host) in a.sites {
      EverySiteIsThere(SortByTime(log), rules, e);
    }
  }

  lemma {:induction false} EverySiteIsThere(es: seq<Event>, rules: Rules, e: Event)
    requires e in multiset(es)
    ensures rules.site(e.host) in SiteTable(es, rules)
  {
    SitesAreGroups(es, rules);
    var i :| 0 <= i < |es| && es[i] == e;
    assert Domain(rules)(es[i]) == rules.site(e.host);
  }
}
