/** What a report over a log should say: every table as a grouping of the events. */
module LogReport {
  import opened Common
  import opened Grouping

  /** One accepted or rejected connection; times are seconds from some midnight. */
  datatype Event = Event(when: int, refused: bool, network: string, host: string, port: nat, outbound: string,
                         email: string, source: string)

  datatype Meta = Meta(title: string, category: string, kind: string)

  datatype Site = Site(connections: nat, rejected: nat, hosts: Counter<string>, ports: Counter<nat>,
                       networks: Counter<string>, outbounds: Counter<string>, clients: Counter<string>,
                       hourly: Counter<int>, first: Option<int>, last: Option<int>)

  datatype Client = Client(connections: nat, sites: set<string>, emails: set<string>, first: Option<int>,
                           last: Option<int>)

  // ---------------------------------------------------------------- the keys events are grouped by

  /** How hosts are grouped into sites, and sites and hosts described. */
  datatype Rules = Rules(site: string -> string, classify: (string, string) -> Meta)

  function Domain(rules: Rules): Event -> string {
    (e: Event) => rules.site(e.host)
  }

  function Host(e: Event): string { e.host }

  function Port(e: Event): nat { e.port }

  function Network(e: Event): string { e.network }

  function Outbound(e: Event): string { e.outbound }

  function OutboundOrUnknown(e: Event): string { if e.outbound != "" then e.outbound else "unknown" }

  function Email(e: Event): string { e.email }

  function Who(e: Event): string {
    if e.email != "" then e.email else if e.source != "" then e.source else "unknown"
  }

  function Hour(e: Event): int { e.when / 3600 }

  predicate HasOutbound(e: Event) { e.outbound != "" }

  predicate HasEmail(e: Event) { e.email != "" }

  predicate IsRejected(e: Event) { e.refused || e.outbound == "block" }

  /** Connections to port 53 are filed as system traffic whatever their host. */
  function MetaOf(rules: Rules, e: Event): Meta {
    var m := rules.classify(rules.site(e.host), e.host);
    if e.port == 53 then Meta(m.title, "system", "background") else m
  }

  function Category(rules: Rules): Event -> string {
    (e: Event) => MetaOf(rules, e).category
  }

  // ---------------------------------------------------------------- summaries of a group

  function Earlier(t: Option<int>, when: int): Option<int> {
    if t.None? || when < t.value then Some(when) else t
  }

  function Later(t: Option<int>, when: int): Option<int> {
    if t.None? || when > t.value then Some(when) else t
  }

  function Earliest(es: seq<Event>): Option<int> {
    if es == [] then None else Earlier(Earliest(es[..|es| - 1]), es[|es| - 1].when)
  }

  function Latest(es: seq<Event>): Option<int> {
    if es == [] then None else Later(Latest(es[..|es| - 1]), es[|es| - 1].when)
  }

  function SetOf(es: seq<Event>, key: Event -> string): set<string> {
    if es == [] then {} else SetOf(es[..|es| - 1], key) + {key(es[|es| - 1])}
  }

  function SiteOf(es: seq<Event>): Site {
    Site(|es|, |Filter(es, IsRejected)|, Counts(es, Host), Counts(es, Port), Counts(es, Network),
         Counts(Filter(es, HasOutbound), Outbound), Counts(es, Who), Counts(es, Hour), Earliest(es), Latest(es))
  }

  function ClientOf(rules: Rules): seq<Event> -> Client {
    (es: seq<Event>) => Client(|es|, SetOf(es, Domain(rules)), SetOf(Filter(es, HasEmail), Email), Earliest(es),
                               Latest(es))
  }

  /** A site is described by its last event. */
  function LastMeta(rules: Rules): seq<Event> -> Option<Meta> {
    (es: seq<Event>) => if es == [] then None else Some(MetaOf(rules, es[|es| - 1]))
  }

  function CategoriesOf(rules: Rules): seq<Event> -> Counter<string> {
    (es: seq<Event>) => Counts(es, Category(rules))
  }

  // ---------------------------------------------------------------- the tables, one event at a time

  const NEW_SITE := Site(0, 0, map[], map[], map[], map[], map[], map[], None, None)
  const NEW_CLIENT := Client(0, {}, {}, None, None)

  function WithEvent(s: Site, e: Event): Site {
    Site(s.connections + 1, s.rejected + (if IsRejected(e) then 1 else 0), Bump(s.hosts, e.host), Bump(s.ports, e.port),
         Bump(s.networks, e.network), if e.outbound != "" then Bump(s.outbounds, e.outbound) else s.outbounds,
         Bump(s.clients, Who(e)), Bump(s.hourly, Hour(e)), Earlier(s.first, e.when), Later(s.last, e.when))
  }

  function ClientWith(c: Client, e: Event, rules: Rules): Client {
    Client(c.connections + 1, c.sites + {rules.site(e.host)}, if e.email != "" then c.emails + {e.email} else c.emails,
           Earlier(c.first, e.when), Later(c.last, e.when))
  }

  function AddToClient(rules: Rules): (Client, Event) -> Client {
    (c: Client, e: Event) => ClientWith(c, e, rules)
  }

  function AddMeta(rules: Rules): (Option<Meta>, Event) -> Option<Meta> {
    (_: Option<Meta>, e: Event) => Some(MetaOf(rules, e))
  }

  function AddCategory(rules: Rules): (Counter<string>, Event) -> Counter<string> {
    (c: Counter<string>, e: Event) => Bump(c, MetaOf(rules, e).category)
  }

  function SiteTable(es: seq<Event>, rules: Rules): map<string, Site> {
    Fold(es, Domain(rules), NEW_SITE, WithEvent)
  }

  function ClientTable(es: seq<Event>, rules: Rules): map<string, Client> {
    Fold(es, Who, NEW_CLIENT, AddToClient(rules))
  }

  function MetaTable(es: seq<Event>, rules: Rules): map<string, Option<Meta>> {
    Fold(es, Domain(rules), None, AddMeta(rules))
  }

  function CategoryTable(es: seq<Event>, rules: Rules): map<int, Counter<string>> {
    Fold(es, Hour, map[], AddCategory(rules))
  }

  lemma {:induction false} SetSnoc(es: seq<Event>, e: Event, key: Event -> string)
    ensures SetOf(es + [e], key) == SetOf(es, key) + {key(e)}
  {
    assert (es + [e])[..|es|] == es;
  }

  lemma {:induction false} TimesSnoc(es: seq<Event>, e: Event)
    ensures Earliest(es + [e]) == Earlier(Earliest(es), e.when) && Latest(es + [e]) == Later(Latest(es), e.when)
  {
    assert (es + [e])[..|es|] == es;
  }

  lemma {:induction false} SiteSnoc(es: seq<Event>, e: Event)
    ensures SiteOf(es + [e]) == WithEvent(SiteOf(es), e)
  {
    CountsSnoc(es, e, Host);
    CountsSnoc(es, e, Port);
    CountsSnoc(es, e, Network);
    CountsSnoc(es, e, Who);
    CountsSnoc(es, e, Hour);
    TimesSnoc(es, e);
    FilterSnoc(es, e, IsRejected);
    OutboundsSnoc(es, e);
  }

  lemma {:induction false} OutboundsSnoc(es: seq<Event>, e: Event)
    ensures var c := Counts(Filter(es, HasOutbound), Outbound);
            Counts(Filter(es + [e], HasOutbound), Outbound) == if e.outbound != "" then Bump(c, e.outbound) else c
  {
    FilterSnoc(es, e, HasOutbound);
    var f := Filter(es, HasOutbound);
    CountsSnoc(f, e, Outbound);
    hide Filter, Counts;
    assert f + [] == f;
  }

  lemma {:induction false} EmailsSnoc(es: seq<Event>, e: Event)
    ensures var s := SetOf(Filter(es, HasEmail), Email);
            SetOf(Filter(es + [e], HasEmail), Email) == if e.email != "" then s + {e.email} else s
  {
    FilterSnoc(es, e, HasEmail);
    var f := Filter(es, HasEmail);
    SetSnoc(f, e, Email);
    hide Filter, SetOf;
    assert f + [] == f;
  }

  lemma {:induction false} ClientSnoc(es: seq<Event>, e: Event, rules: Rules)
    ensures ClientOf(rules)(es + [e]) == ClientWith(ClientOf(rules)(es), e, rules)
  {
    SetSnoc(es, e, Domain(rules));
    TimesSnoc(es, e);
    EmailsSnoc(es, e);
  }

  // ---------------------------------------------------------------- the tables are groupings

  /** The site table holds, for every site that occurs and no other, the summary of its events. */
  lemma {:induction false} SitesAreGroups(es: seq<Event>, rules: Rules)
    ensures Grouped(SiteTable(es, rules), es, Domain(rules), SiteOf)
  {
    forall s: seq<Event>, e: Event ensures SiteOf(s + [e]) == WithEvent(SiteOf(s), e) {
      SiteSnoc(s, e);
    }
    FoldIsGrouping(es, Domain(rules), SiteOf, NEW_SITE, WithEvent);
  }

  lemma {:induction false} ClientsAreGroups(es: seq<Event>, rules: Rules)
    ensures Grouped(ClientTable(es, rules), es, Who, ClientOf(rules))
  {
    forall s: seq<Event>, e: Event ensures ClientOf(rules)(s + [e]) == AddToClient(rules)(ClientOf(rules)(s), e) {
      ClientSnoc(s, e, rules);
    }
    FoldIsGrouping(es, Who, ClientOf(rules), NEW_CLIENT, AddToClient(rules));
  }

  /** A site is described by its last event alone. */
  lemma {:induction false} MetaIsTheLastEvents(es: seq<Event>, rules: Rules)
    ensures Grouped(MetaTable(es, rules), es, Domain(rules), LastMeta(rules))
  {
    FoldIsGrouping(es, Domain(rules), LastMeta(rules), None, AddMeta(rules));
  }

  lemma {:induction false} CategoriesAreGroups(es: seq<Event>, rules: Rules)
    ensures Grouped(CategoryTable(es, rules), es, Hour, CategoriesOf(rules))
  {
    forall s: seq<Event>, e: Event
      ensures CategoriesOf(rules)(s + [e]) == AddCategory(rules)(CategoriesOf(rules)(s), e)
    {
      CountsSnoc(s, e, Category(rules));
    }
    FoldIsGrouping(es, Hour, CategoriesOf(rules), map[], AddCategory(rules));
  }

  lemma {:induction false} TablesSnoc(es: seq<Event>, e: Event, rules: Rules)
    ensures var m, d := SiteTable(es, rules), rules.site(e.host);
            SiteTable(es + [e], rules) == m[d := WithEvent(Find(m, d, NEW_SITE), e)]
    ensures var m := ClientTable(es, rules);
            ClientTable(es + [e], rules) == m[Who(e) := ClientWith(Find(m, Who(e), NEW_CLIENT), e, rules)]
    ensures MetaTable(es + [e], rules) == MetaTable(es, rules)[rules.site(e.host) := Some(MetaOf(rules, e))]
    ensures var m := CategoryTable(es, rules);
            CategoryTable(es + [e], rules) == m[Hour(e) := Bump(Find(m, Hour(e), map[]), MetaOf(rules, e).category)]
  {
    FoldSnoc(es, e, Domain(rules), NEW_SITE, WithEvent);
    FoldSnoc(es, e, Who, NEW_CLIENT, AddToClient(rules));
    FoldSnoc(es, e, Domain(rules), None, AddMeta(rules));
    FoldSnoc(es, e, Hour, map[], AddCategory(rules));
  }

  /** Every table of the report. */
  datatype Tables = Tables(sites: map<string, Site>, siteMeta: map<string, Option<Meta>>, hourlyTotal: Counter<int>,
                           hourlyByCategory: map<int, Counter<string>>, ports: Counter<nat>, networks: Counter<string>,
                           outbounds: Counter<string>, clients: map<string, Client>, rejected: seq<Event>)

  const EMPTY := Tables(map[], map[], map[], map[], map[], map[], map[], map[], [])

  function Classified(t: Tables, e: Event, rules: Rules): Tables {
    var meta := MetaOf(rules, e);
    t.(siteMeta := t.siteMeta[rules.site(e.host) := Some(meta)],
       hourlyByCategory := t.hourlyByCategory[Hour(e) := Bump(Find(t.hourlyByCategory, Hour(e), map[]), meta.category)])
  }

  function Visited(t: Tables, e: Event, rules: Rules): Tables {
    var d := rules.site(e.host);
    t.(sites := t.sites[d := WithEvent(Find(t.sites, d, NEW_SITE), e)])
  }

  function Ticked(t: Tables, e: Event): Tables {
    t.(hourlyTotal := Bump(t.hourlyTotal, Hour(e)), ports := Bump(t.ports, e.port),
       networks := Bump(t.networks, e.network),
       outbounds := Bump(t.outbounds, OutboundOrUnknown(e)), rejected := t.rejected + if IsRejected(e) then [e] else [])
  }

  function Attributed(t: Tables, e: Event, rules: Rules): Tables {
    t.(clients := t.clients[Who(e) := ClientWith(Find(t.clients, Who(e), NEW_CLIENT), e, rules)])
  }

  function Added(t: Tables, e: Event, rules: Rules): Tables {
    Attributed(Ticked(Visited(Classified(t, e, rules), e, rules), e), e, rules)
  }

  /** The tables after one pass over the events. */
  function Report(es: seq<Event>, rules: Rules): Tables {
    if es == [] then EMPTY else Added(Report(es[..|es| - 1], rules), es[|es| - 1], rules)
  }

  lemma {:induction false} ReportSnoc(es: seq<Event>, e: Event, rules: Rules)
    ensures Report(es + [e], rules) == Added(Report(es, rules), e, rules)
  {
    assert (es + [e])[..|es|] == es;
  }

  lemma {:induction false} CountersSnoc(es: seq<Event>, e: Event)
    ensures Counts(es + [e], Hour) == Bump(Counts(es, Hour), Hour(e))
    ensures Counts(es + [e], Port) == Bump(Counts(es, Port), e.port)
    ensures Counts(es + [e], Network) == Bump(Counts(es, Network), e.network)
    ensures Counts(es + [e], OutboundOrUnknown) == Bump(Counts(es, OutboundOrUnknown), OutboundOrUnknown(e))
    ensures Filter(es + [e], IsRejected) == Filter(es, IsRejected) + if IsRejected(e) then [e] else []
  {
    assert (es + [e])[..|es|] == es;
  }

  /** Every table on its own. */
  function Each(es: seq<Event>, rules: Rules): Tables {
    Tables(SiteTable(es, rules), MetaTable(es, rules), Counts(es, Hour), CategoryTable(es, rules), Counts(es, Port),
           Counts(es, Network), Counts(es, OutboundOrUnknown), ClientTable(es, rules), Filter(es, IsRejected))
  }

  lemma {:induction false} EachSnoc(es: seq<Event>, e: Event, rules: Rules)
    ensures Each(es + [e], rules) == Added(Each(es, rules), e, rules)
  {
    TablesSnoc(es, e, rules);
    CountersSnoc(es, e);
  }

  /** The one pass fills every table as a pass of its own would. */
  lemma {:induction false} ReportTables(es: seq<Event>, rules: Rules)
    ensures Report(es, rules) == Each(es, rules)
  {
    var f: seq<Event> -> Tables := (s: seq<Event>) => Report(s, rules);
    var g: seq<Event> -> Tables := (s: seq<Event>) => Each(s, rules);
    var add: (Tables, Event) -> Tables := (t: Tables, e: Event) => Added(t, e, rules);
    forall s: seq<Event>, e: Event ensures f(s + [e]) == add(f(s), e) {
      ReportSnoc(s, e, rules);
    }
    forall s: seq<Event>, e: Event ensures g(s + [e]) == add(g(s), e) {
      EachSnoc(s, e, rules);
    }
    SummaryIsUnique(es, f, g, EMPTY, add);
  }

  // ---------------------------------------------------------------- what the summaries mean

  /** First and last are the minimum and the maximum, and both occur. */
  lemma {:induction false} FirstAndLast(es: seq<Event>)
    requires es != []
    ensures Earliest(es).Some? && Latest(es).Some?
    ensures forall i | 0 <= i < |es| :: Earliest(es).value <= es[i].when <= Latest(es).value
    ensures exists i :: 0 <= i < |es| && es[i].when == Earliest(es).value
    ensures exists i :: 0 <= i < |es| && es[i].when == Latest(es).value
  {
    var init, e := es[..|es| - 1], es[|es| - 1];
    assert es[|es| - 1].when == e.when;
    if init != [] {
      FirstAndLast(init);
      var i :| 0 <= i < |init| && init[i].when == Earliest(init).value;
      var j :| 0 <= j < |init| && init[j].when == Latest(init).value;
      assert es[i] == init[i] && es[j] == init[j];
      assert forall k | 0 <= k < |init| :: es[k] == init[k];
    }
  }

  /** Within a site every counter sums to its connections, outbounds to the tagged ones. */
  lemma {:induction false} SiteCountersBalance(es: seq<Event>)
    ensures var s := SiteOf(es);
            && Total(s.hosts) == s.connections && Total(s.ports) == s.connections && Total(s.networks) == s.connections
            && Total(s.clients) == s.connections && Total(s.hourly) == s.connections
            && Total(s.outbounds) == |Filter(es, HasOutbound)| <= s.connections && s.rejected <= s.connections
  {
    CounterTotal(es, Host);
    CounterTotal(es, Port);
    CounterTotal(es, Network);
    CounterTotal(es, Who);
    CounterTotal(es, Hour);
    CounterTotal(Filter(es, HasOutbound), Outbound);
    FilterAll(es, HasOutbound);
    FilterAll(es, IsRejected);
  }

  // ---------------------------------------------------------------- what the tables sum to

  function ConnectionsOf(s: Site): nat { s.connections }

  function RejectionsOf(s: Site): nat { s.rejected }

  function ClientConnectionsOf(c: Client): nat { c.connections }

  predicate Any(e: Event) { true }

  lemma {:induction false} AnyIsEvery()
    ensures forall s: seq<Event> :: Filter(s, Any) == s
  {
    forall s: seq<Event> ensures Filter(s, Any) == s {
      FilterEvery(s, Any);
    }
  }

  /** Over all sites, connections sum to the events and rejections to the rejected events. */
  lemma {:induction false} SitesPartitionEvents(es: seq<Event>, rules: Rules)
    ensures var m := SiteTable(es, rules);
            && SumOver(m.Keys, WeightIn(m, ConnectionsOf)) == |es|
            && SumOver(m.Keys, WeightIn(m, RejectionsOf)) == |Filter(es, IsRejected)|
  {
    SitesAreGroups(es, rules);
    AnyIsEvery();
    WeightsPartition(SiteTable(es, rules), es, Domain(rules), SiteOf, ConnectionsOf, Any);
    WeightsPartition(SiteTable(es, rules), es, Domain(rules), SiteOf, RejectionsOf, IsRejected);
  }

  lemma {:induction false} ClientsPartitionEvents(es: seq<Event>, rules: Rules)
    ensures var m := ClientTable(es, rules); SumOver(m.Keys, WeightIn(m, ClientConnectionsOf)) == |es|
  {
    ClientsAreGroups(es, rules);
    AnyIsEvery();
    WeightsPartition(ClientTable(es, rules), es, Who, ClientOf(rules), ClientConnectionsOf, Any);
  }

  // ---------------------------------------------------------------- the timeline

  datatype Slot = Slot(hour: int, connections: nat, byCategory: Counter<string>)

  predicate Sorted(es: seq<Event>) {
    forall i, j | 0 <= i < j < |es| :: es[i].when <= es[j].when
  }

  /** Puts an event behind every one that is not later. */
  function Insert(es: seq<Event>, e: Event): (r: seq<Event>)
    ensures multiset(r) == multiset(es) + multiset{e} && |r| == |es| + 1
  {
    if es == [] then [e]
    else
      var init, last := es[..|es| - 1], es[|es| - 1];
      assert es == init + [last];
      if last.when <= e.when then es + [e] else Insert(init, e) + [last]
  }

  /** The events by time, those of one time in their old order. */
  function SortByTime(es: seq<Event>): (r: seq<Event>)
    ensures multiset(r) == multiset(es) && |r| == |es|
  {
    if es == [] then []
    else
      assert es == es[..|es| - 1] + [es[|es| - 1]];
      Insert(SortByTime(es[..|es| - 1]), es[|es| - 1])
  }

  lemma {:induction false} SortedSnoc(es: seq<Event>, e: Event)
    requires Sorted(es) && (es != [] ==> es[|es| - 1].when <= e.when)
    ensures Sorted(es + [e])
  {
  }

  lemma {:induction false} InsertSorted(es: seq<Event>, e: Event)
    requires Sorted(es)
    ensures Sorted(Insert(es, e))
    ensures Insert(es, e)[|es|].when == if es != [] && es[|es| - 1].when > e.when then es[|es| - 1].when else e.when
  {
    if es == [] || es[|es| - 1].when <= e.when {
      SortedSnoc(es, e);
      assert es == [] ==> es + [e] == [e];
    } else {
      var init, last := es[..|es| - 1], es[|es| - 1];
      assert init != [] ==> init[|init| - 1].when <= last.when;
      InsertSorted(init, e);
      SortedSnoc(Insert(init, e), last);
    }
  }

  function At(t: int): Event -> bool {
    (e: Event) => e.when == t
  }

  /** One step of the insertion: an event passes a later one. */
  lemma {:induction false} PassesLater(init: seq<Event>, passed: seq<Event>, e: Event, last: Event, t: int)
    requires Filter(passed, At(t)) == Filter(init, At(t)) + if At(t)(e) then [e] else []
    requires e.when < last.when
    ensures Filter(passed + [last], At(t)) == Filter(init + [last], At(t)) + if At(t)(e) then [e] else []
  {
    FilterSnoc(passed, last, At(t));
    FilterSnoc(init, last, At(t));
    hide Filter;
    var f := Filter(init, At(t));
    if At(t)(last) {
      assert f + [] == f && f + [last] + [] == f + [last];
    } else {
      assert f + [] == f;
    }
  }

  lemma {:induction false} InsertIsStable(es: seq<Event>, e: Event, t: int)
    ensures Filter(Insert(es, e), At(t)) == Filter(es, At(t)) + if At(t)(e) then [e] else []
  {
    if es == [] || es[|es| - 1].when <= e.when {
      FilterSnoc(es, e, At(t));
      assert Insert(es, e) == es + [e];
    } else {
      var init, last := es[..|es| - 1], es[|es| - 1];
      InsertIsStable(init, e, t);
      PassesLater(init, Insert(init, e), e, last, t);
      assert es == init + [last] && Insert(es, e) == Insert(init, e) + [last];
    }
  }

  lemma {:induction false} SortSnoc(init: seq<Event>, e: Event)
    ensures SortByTime(init + [e]) == Insert(SortByTime(init), e)
  {
    hide Insert;
    assert (init + [e])[..|init|] == init;
  }

  lemma {:induction false} SortSorts(es: seq<Event>)
    ensures Sorted(SortByTime(es))
  {
    if es != [] {
      SortSorts(es[..|es| - 1]);
      InsertSorted(SortByTime(es[..|es| - 1]), es[|es| - 1]);
    }
  }

  lemma {:induction false} StableStep(init: seq<Event>, e: Event, t: int)
    requires Filter(SortByTime(init), At(t)) == Filter(init, At(t))
    ensures Filter(SortByTime(init + [e]), At(t)) == Filter(init + [e], At(t))
  {
    InsertIsStable(SortByTime(init), e, t);
    FilterSnoc(init, e, At(t));
    SortSnoc(init, e);
    hide Filter, SortByTime, Insert, At;
  }

  lemma {:induction false} NothingToSort(t: int)
    ensures Filter(SortByTime([]), At(t)) == Filter([], At(t))
  {
  }

  /** Events of one time keep their order. */
  lemma {:induction false} SortIsStable(es: seq<Event>, t: int)
    ensures Filter(SortByTime(es), At(t)) == Filter(es, At(t))
  {
    hide Filter, SortByTime, At;
    if es == [] {
      NothingToSort(t);
    } else {
      var init, e := es[..|es| - 1], es[|es| - 1];
      SortIsStable(init, t);
      StableStep(init, e, t);
      assert es == init + [e];
    }
  }

  /** Sorting orders the events, loses none, and keeps the order of those of one time. */
  lemma {:induction false} SortOrders(es: seq<Event>, t: int)
    ensures Sorted(SortByTime(es)) && multiset(SortByTime(es)) == multiset(es)
    ensures Filter(SortByTime(es), At(t)) == Filter(es, At(t))
  {
    SortSorts(es);
    SortIsStable(es, t);
  }

  /** One slot per hour from the first to the last, quiet hours included. */
  ghost predicate IsTimeline(t: seq<Slot>, es: seq<Event>, start: int, rules: Rules) {
    forall i | 0 <= i < |t| ::
      && t[i].hour == start + i && t[i].connections == |Group(es, Hour, start + i)|
      && t[i].byCategory == Counts(Group(es, Hour, start + i), Category(rules))
  }

  function SumSlots(t: seq<Slot>): nat {
    if t == [] then 0 else SumSlots(t[..|t| - 1]) + t[|t| - 1].connections
  }

  lemma {:induction false} SlotsSumRange(t: seq<Slot>, es: seq<Event>, start: int, rules: Rules)
    requires IsTimeline(t, es, start, rules)
    ensures SumSlots(t) == SumRange(start, start + |t|, SizeOf(es, Hour))
  {
    if t != [] {
      SlotsSumRange(t[..|t| - 1], es, start, rules);
    }
  }

  /** The hourly timeline of a sorted log loses no event, and each hour's categories sum to
      the hour. */
  lemma {:induction false} TimelinePartitionsEvents(t: seq<Slot>, es: seq<Event>, rules: Rules, i: nat)
    requires es != [] && Sorted(es) && IsTimeline(t, es, Hour(es[0]), rules)
    requires |t| == Hour(es[|es| - 1]) - Hour(es[0]) + 1
    ensures SumSlots(t) == |es|
    ensures i < |t| ==> Total(t[i].byCategory) == t[i].connections
  {
    SlotsSumRange(t, es, Hour(es[0]), rules);
    RangePartition(es, Hour, Hour(es[0]), Hour(es[0]) + |t|);
    if i < |t| {
      CounterTotal(Group(es, Hour, Hour(es[0]) + i), Category(rules));
    }
  }
}
