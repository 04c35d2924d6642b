/** What the numbers of a report say of the events themselves. */
module LogMeaning {
  import opened Common
  import opened Grouping
  import opened LogReport

  /** The client an event is put down to: its email, else its source, else nobody known. */
  predicate From(e: Event, client: string) {
    || (e.email != "" && e.email == client)
    || (e.email == "" && e.source != "" && e.source == client)
    || (e.email == "" && e.source == "" && client == "unknown")
  }

  /** Between one full hour and the next. */
  predicate During(e: Event, hour: int) {
    hour * 3600 <= e.when < hour * 3600 + 3600
  }

  predicate TurnedAway(e: Event) {
    e.refused || e.outbound == "block"
  }

  lemma {:induction false} SameFilter<E(!new)>(es: seq<E>, p: E -> bool, q: E -> bool)
    requires forall e :: p(e) == q(e)
    ensures Filter(es, p) == Filter(es, q)
  {
    if es != [] {
      SameFilter(es[..|es| - 1], p, q);
    }
  }

  lemma {:induction false} CountsMean<E(!new), K>(es: seq<E>, key: E -> K, k: K, p: E -> bool)
    requires forall e :: p(e) <==> key(e) == k
    ensures Get(Counts(es, key), k) == |Filter(es, p)|
  {
    CountsAreGroupSizes(es, key, k);
    SameFilter(es, e => key(e) == k, p);
  }

  lemma {:induction false} KeysMean(client: string, hour: int)
    ensures forall e :: From(e, client) <==> Who(e) == client
    ensures forall e :: During(e, hour) <==> Hour(e) == hour
    ensures forall e :: TurnedAway(e) <==> IsRejected(e)
  {
  }

  lemma {:induction false} GroupedMeans<E(!new), K, V>(m: map<K, V>, es: seq<E>, key: E -> K, summary: seq<E> -> V,
                                                       k: K, p: E -> bool)
    requires Grouped(m, es, key, summary) && forall e :: p(e) <==> key(e) == k
    ensures k in m <==> Filter(es, p) != []
    ensures k in m ==> m[k] == summary(Filter(es, p))
  {
    SameFilter(es, e => key(e) == k, p);
    GroupOfKey(es, key, k);
  }

  predicate To(rules: Rules, e: Event, domain: string) {
    rules.site(e.host) == domain
  }

  /** The events of one site, in order. */
  function EventsOf(es: seq<Event>, rules: Rules, domain: string): seq<Event> {
    Filter(es, (e: Event) => To(rules, e, domain))
  }

  lemma {:induction false} GroupOfKey<E, K>(es: seq<E>, key: E -> K, k: K)
    ensures Group(es, key, k) != [] <==> exists i :: 0 <= i < |es| && key(es[i]) == k
  {
    if es != [] {
      GroupOfKey(es[..|es| - 1], key, k);
    }
  }

  lemma {:induction false} NumbersOfGroup(g: seq<Event>, host: string, port: nat, network: string, client: string,
                                          hour: int)
    ensures var s := SiteOf(g);
            && s.connections == |g| && s.rejected == |Filter(g, TurnedAway)|
            && Get(s.hosts, host) == |Filter(g, (e: Event) => e.host == host)|
            && Get(s.ports, port) == |Filter(g, (e: Event) => e.port == port)|
            && Get(s.networks, network) == |Filter(g, (e: Event) => e.network == network)|
            && Get(s.clients, client) == |Filter(g, (e: Event) => From(e, client))|
            && Get(s.hourly, hour) == |Filter(g, (e: Event) => During(e, hour))|
  {
    KeysMean(client, hour);
    SameFilter(g, TurnedAway, IsRejected);
    CountsMean(g, Host, host, (e: Event) => e.host == host);
    CountsMean(g, Port, port, (e: Event) => e.port == port);
    CountsMean(g, Network, network, (e: Event) => e.network == network);
    CountsMean(g, Who, client, (e: Event) => From(e, client));
    CountsMean(g, Hour, hour, (e: Event) => During(e, hour));
  }

  /** What the tables over all sites say of the events. */
  lemma {:induction false} ReportNumbers(es: seq<Event>, rules: Rules, port: nat, network: string, outbound: string,
                                         hour: int)
    ensures var r := Report(es, rules);
            && r.rejected == Filter(es, TurnedAway)
            && Get(r.ports, port) == |Filter(es, (e: Event) => e.port == port)|
            && Get(r.networks, network) == |Filter(es, (e: Event) => e.network == network)|
            && Get(r.hourlyTotal, hour) == |Filter(es, (e: Event) => During(e, hour))|
            && (outbound != "" && outbound != "unknown" ==>
                  Get(r.outbounds, outbound) == |Filter(es, (e: Event) => e.outbound == outbound)|)
            && Get(r.outbounds, "unknown") == |Filter(es, (e: Event) => e.outbound == "" || e.outbound == "unknown")|
  {
    ReportTables(es, rules);
    KeysMean("", hour);
    SameFilter(es, TurnedAway, IsRejected);
    CountsMean(es, Port, port, (e: Event) => e.port == port);
    CountsMean(es, Network, network, (e: Event) => e.network == network);
    CountsMean(es, Hour, hour, (e: Event) => During(e, hour));
    OutboundNumbers(es, outbound);
    hide Report, Filter, Counts, Get;
  }

  lemma {:induction false} OutboundNumbers(es: seq<Event>, outbound: string)
    ensures var c := Counts(es, OutboundOrUnknown);
            && (outbound != "" && outbound != "unknown" ==>
                  Get(c, outbound) == |Filter(es, (e: Event) => e.outbound == outbound)|)
            && Get(c, "unknown") == |Filter(es, (e: Event) => e.outbound == "" || e.outbound == "unknown")|
  {
    if outbound != "" && outbound != "unknown" {
      CountsMean(es, OutboundOrUnknown, outbound, (e: Event) => e.outbound == outbound);
    }
    CountsMean(es, OutboundOrUnknown, "unknown", (e: Event) => e.outbound == "" || e.outbound == "unknown");
  }

  /** What the entry of one site says of the events of that site. */
  lemma {:induction false} SiteNumbers(es: seq<Event>, rules: Rules, domain: string, host: string, port: nat,
                                       network: string, client: string, hour: int)
    ensures var g, sites := EventsOf(es, rules, domain), Report(es, rules).sites;
            && (domain in sites <==> g != [])
            && (domain in sites ==>
                  var s := sites[domain];
                  && s.connections == |g| && s.rejected == |Filter(g, TurnedAway)|
                  && Get(s.hosts, host) == |Filter(g, (e: Event) => e.host == host)|
                  && Get(s.ports, port) == |Filter(g, (e: Event) => e.port == port)|
                  && Get(s.networks, network) == |Filter(g, (e: Event) => e.network == network)|
                  && Get(s.clients, client) == |Filter(g, (e: Event) => From(e, client))|
                  && Get(s.hourly, hour) == |Filter(g, (e: Event) => During(e, hour))|)
  {
    ReportTables(es, rules);
    SitesAreGroups(es, rules);
    GroupedMeans(SiteTable(es, rules), es, Domain(rules), SiteOf, domain, (e: Event) => To(rules, e, domain));
    hide SiteOf, Filter, Report, Get;
    NumbersOfGroup(EventsOf(es, rules, domain), host, port, network, client, hour);
  }

  /** What the entry of one client says. */
  lemma {:induction false} ClientNumbers(es: seq<Event>, rules: Rules, client: string)
    ensures var g, clients := Filter(es, (e: Event) => From(e, client)), Report(es, rules).clients;
            && (client in clients <==> g != [])
            && (client in clients ==> clients[client].connections == |g|)
  {
    ReportTables(es, rules);
    ClientsAreGroups(es, rules);
    KeysMean(client, 0);
    GroupedMeans(ClientTable(es, rules), es, Who, ClientOf(rules), client, (e: Event) => From(e, client));
  }

  lemma {:induction false} LastEventOf(es: seq<Event>, rules: Rules, domain: string)
    ensures var g := EventsOf(es, rules, domain); g != [] ==> To(rules, g[|g| - 1], domain)
  {
    FilterAll(es, (e: Event) => To(rules, e, domain));
  }

  /** How an event describes its site: as system traffic if it went to port 53, else as its rules have it. */
  function Described(rules: Rules, domain: string, e: Event): Meta {
    var c := rules.classify(domain, e.host);
    if e.port == 53 then Meta(c.title, "system", "background") else c
  }

  lemma {:induction false} LastDescribes(g: seq<Event>, rules: Rules, domain: string)
    requires g != [] && To(rules, g[|g| - 1], domain)
    ensures LastMeta(rules)(g) == Some(Described(rules, domain, g[|g| - 1]))
  {
  }

  lemma {:induction false} MetaMeans(es: seq<Event>, rules: Rules, domain: string)
    ensures domain in MetaTable(es, rules) <==> EventsOf(es, rules, domain) != []
    ensures domain in MetaTable(es, rules) ==>
              MetaTable(es, rules)[domain] == LastMeta(rules)(EventsOf(es, rules, domain))
  {
    hide Filter, MetaTable;
    MetaIsTheLastEvents(es, rules);
    GroupedMeans(MetaTable(es, rules), es, Domain(rules), LastMeta(rules), domain, (e: Event) => To(rules, e, domain));
  }

  /** A site is described by its last event. */
  lemma {:induction false} SiteIsFiledByItsLast(es: seq<Event>, rules: Rules, domain: string)
    ensures var g, meta := EventsOf(es, rules, domain), Report(es, rules).siteMeta;
            && (domain in meta <==> g != [])
            && (domain in meta ==> meta[domain] == Some(Described(rules, domain, g[|g| - 1])))
  {
    hide EventsOf, MetaTable, LastMeta, Described, To, Report;
    ReportTables(es, rules);
    MetaMeans(es, rules, domain);
    LastEventOf(es, rules, domain);
    if EventsOf(es, rules, domain) != [] {
      LastDescribes(EventsOf(es, rules, domain), rules, domain);
    }
  }
}
