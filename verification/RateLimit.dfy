/** The fixed-window rate limiter: one Redis counter per limit, client and aligned window.
    Times are nanoseconds since the zero time of the host language, whole-second windows. */
module RateLimit {
  import opened Common
  import opened Text

  const SECOND: nat := 1_000_000_000
  /** Seconds from the zero time, to which windows are aligned, to the Unix epoch. */
  const UNIX_EPOCH: nat := 62_135_596_800

  datatype Limit = Limit(name: string, reqs: int, window: nat)

  datatype Counter = Counter(count: nat, expires: Option<int>)

  type Db = map<string, Counter>

  /** What became of the INCR: applied and answered, applied with the answer lost, or not applied. */
  datatype Reply = Answered | Lost | Refused

  /** One request: when it read the clock, when Redis ran its INCR, and when its EXPIRE took
      effect, if it was sent and did. */
  datatype Request = Request(limit: Limit, ip: string, at: nat, when: nat, reply: Reply, expiry: Option<nat>)

  // ---------------------------------------------------------------- keys

  function Length(l: Limit): nat {
    l.window * SECOND
  }

  function Slot(l: Limit, at: nat): nat
    requires l.window > 0
  {
    at / Length(l)
  }

  function WindowStart(l: Limit, at: nat): int
    requires l.window > 0
  {
    Slot(l, at) * l.window - UNIX_EPOCH
  }

  function FormatInt(i: int): (s: string)
    ensures ':' !in s
  {
    if i < 0 then "-" + Decimal(-i) else Decimal(i)
  }

  function Key(name: string, ip: string, start: int): string {
    "rl:" + (name + ":" + (ip + ":" + FormatInt(start)))
  }

  lemma {:induction false} FormatIntInjective(i: int, j: int)
    requires FormatInt(i) == FormatInt(j)
    ensures i == j
  {
    ValueOfDecimal(if i < 0 then -i else i);
    ValueOfDecimal(if j < 0 then -j else j);
    assert FormatInt(i)[0] == '-' <==> i < 0;
    assert FormatInt(j)[0] == '-' <==> j < 0;
    assert i < 0 ==> FormatInt(i)[1..] == Decimal(-i);
    assert j < 0 ==> FormatInt(j)[1..] == Decimal(-j);
  }

  lemma {:induction false} FirstColon(a: string, s: string, b: string, t: string)
    requires ':' !in a && ':' !in b && a + ":" + s == b + ":" + t
    ensures a == b && s == t
  {
    var x := a + ":" + s;
    assert x[|a|] == ':' && x[|b|] == ':';
    assert forall i | 0 <= i < |a| :: x[i] == a[i];
    assert forall i | 0 <= i < |b| :: x[i] == b[i];
    assert a == x[..|a|] && b == x[..|b|] && s == x[|a| + 1..] && t == x[|b| + 1..];
  }

  lemma {:induction false} LastColon(a: string, s: string, b: string, t: string)
    requires ':' !in s && ':' !in t && a + ":" + s == b + ":" + t
    ensures a == b && s == t
  {
    var x := a + ":" + s;
    assert x[|a|] == ':' && x[|b|] == ':';
    assert forall i | 0 <= i < |s| :: x[|a| + 1 + i] == s[i];
    assert forall i | 0 <= i < |t| :: x[|b| + 1 + i] == t[i];
    assert forall i | |a| < i < |x| :: x[i] == s[i - |a| - 1];
    assert forall i | |b| < i < |x| :: x[i] == t[i - |b| - 1];
    assert a == x[..|a|] && b == x[..|b|] && s == x[|a| + 1..] && t == x[|b| + 1..];
  }

  /** Keys of colon-free limit names never collide, IPv6 addresses with their colons included. */
  lemma {:induction false} KeyInjective(n: string, ip: string, start: int, n': string, ip': string, start': int)
    requires ':' !in n && ':' !in n' && Key(n, ip, start) == Key(n', ip', start')
    ensures n == n' && ip == ip' && start == start'
  {
    var s, s' := n + ":" + (ip + ":" + FormatInt(start)), n' + ":" + (ip' + ":" + FormatInt(start'));
    assert Key(n, ip, start)[3..] == s && Key(n', ip', start')[3..] == s';
    FirstColon(n, ip + ":" + FormatInt(start), n', ip' + ":" + FormatInt(start'));
    LastColon(ip, FormatInt(start), ip', FormatInt(start'));
    FormatIntInjective(start, start');
  }

  /** With a colon in a limit's name two limits can share a counter: what the name ends with
      can as well begin the client's address. */
  lemma {:induction false} ColonsCollide(a: string, b: string, c: string, start: int)
    ensures Key(a + ":" + b, c, start) == Key(a, b + ":" + c, start)
  {
    ColonsMove(a, b, c, FormatInt(start));
  }

  lemma {:induction false} ColonsMove(a: string, b: string, c: string, f: string)
    ensures (a + ":" + b) + ":" + (c + ":" + f) == a + ":" + ((b + ":" + c) + ":" + f)
  {
  }

  // ---------------------------------------------------------------- one request

  predicate Live(db: Db, key: string, when: int) {
    key in db && (db[key].expires.Some? ==> when < db[key].expires.value)
  }

  function Bump(db: Db, key: string, when: int): (d: Db)
    ensures key in d && d[key].count >= 1
  {
    if Live(db, key, when) then db[key := db[key].(count := db[key].count + 1)] else db[key := Counter(1, None)]
  }

  function KeyOf(r: Request): string
    requires r.limit.window > 0
  {
    Key(r.limit.name, r.ip, WindowStart(r.limit, r.at))
  }

  function Step(db: Db, r: Request): Db
    requires r.limit.window > 0
  {
    if r.reply.Refused? then db
    else
      var k := KeyOf(r);
      var d := Bump(db, k, r.when);
      if r.reply.Answered? && d[k].count == 1 && r.expiry.Some?
      then d[k := d[k].(expires := Some(r.expiry.value + Length(r.limit) + SECOND))] else d
  }

  /** A request without an answer from Redis is let through. */
  predicate Admitted(db: Db, r: Request)
    requires r.limit.window > 0
  {
    r.reply.Answered? ==> Bump(db, KeyOf(r), r.when)[KeyOf(r)].count <= r.limit.reqs
  }

  // ---------------------------------------------------------------- runs

  /** Redis runs a request's INCR within a second of the request's reading of the clock. */
  predicate Timed(r: Request) {
    && r.limit.window > 0 && ':' !in r.limit.name
    && r.at <= r.when <= r.at + SECOND && (r.expiry.Some? ==> r.when <= r.expiry.value)
  }

  /** Requests of one limit name agree on the limit. */
  predicate Consistent(tr: seq<Request>, l: Limit) {
    forall i | 0 <= i < |tr| :: Timed(tr[i]) && (tr[i].limit.name == l.name ==> tr[i].limit == l)
  }

  function After(tr: seq<Request>): Db
    requires forall i | 0 <= i < |tr| :: Timed(tr[i])
  {
    if tr == [] then map[]
    else
      assert Timed(tr[|tr| - 1]);
      Step(After(tr[..|tr| - 1]), tr[|tr| - 1])
  }

  /** Same limit, same client, same aligned window. */
  predicate Same(r: Request, q: Request) {
    && r.limit.window > 0 && q.limit.window > 0
    && r.limit.name == q.limit.name && r.ip == q.ip && Slot(r.limit, r.at) == Slot(q.limit, q.at)
  }

  /** The requests of `q`'s window that reached its counter. */
  function Tally(tr: seq<Request>, q: Request): nat {
    if tr == [] then 0
    else Tally(tr[..|tr| - 1], q) + if Same(tr[|tr| - 1], q) && !tr[|tr| - 1].reply.Refused? then 1 else 0
  }

  lemma {:induction false} SlotBounds(l: Limit, at: nat)
    requires l.window > 0
    ensures Slot(l, at) * Length(l) <= at < Slot(l, at) * Length(l) + Length(l)
  {
    assert Length(l) > 0;
    assert at == Length(l) * (at / Length(l)) + at % Length(l);
  }

  lemma {:induction false} SameKey(r: Request, q: Request)
    requires Timed(r) && Timed(q) && (r.limit.name == q.limit.name ==> r.limit == q.limit)
    ensures KeyOf(r) == KeyOf(q) <==> Same(r, q)
  {
    if KeyOf(r) == KeyOf(q) {
      KeyInjective(r.limit.name, r.ip, WindowStart(r.limit, r.at), q.limit.name, q.ip, WindowStart(q.limit, q.at));
      Cancel(Slot(r.limit, r.at), Slot(q.limit, q.at), q.limit.window);
    }
  }

  lemma {:induction false} Cancel(a: int, b: int, w: nat)
    requires w > 0 && a * w == b * w
    ensures a == b
  {
    assert (a - b) * w == 0;
  }

  /** The counter of a window holds its tally, and no expiry falls within a second of the
      window: the TTL of one second over the window, set at the first hit, cannot cut it short. */
  lemma {:induction false} CounterHoldsTally(tr: seq<Request>, q: Request)
    requires Consistent(tr, q.limit) && Timed(q)
    ensures Tally(tr, q) == 0 <==> KeyOf(q) !in After(tr)
    ensures Tally(tr, q) > 0 ==> After(tr)[KeyOf(q)].count == Tally(tr, q) && Live(After(tr), KeyOf(q), q.when)
  {
    CounterOutlivesWindow(tr, q);
    SlotBounds(q.limit, q.at);
  }

  predicate Outlives(c: Counter, q: Request)
    requires q.limit.window > 0
  {
    c.expires.Some? ==> Slot(q.limit, q.at) * Length(q.limit) + Length(q.limit) + SECOND <= c.expires.value
  }

  lemma {:induction false} CounterOutlivesWindow(tr: seq<Request>, q: Request)
    requires Consistent(tr, q.limit) && Timed(q)
    ensures Tally(tr, q) == 0 <==> KeyOf(q) !in After(tr)
    ensures Tally(tr, q) > 0 ==> After(tr)[KeyOf(q)].count == Tally(tr, q) && Outlives(After(tr)[KeyOf(q)], q)
  {
    if tr != [] {
      var init, r := tr[..|tr| - 1], tr[|tr| - 1];
      CounterOutlivesWindow(init, q);
      SameKey(r, q);
      if Same(r, q) {
        SlotBounds(r.limit, r.at);
      }
    }
  }

  /** Each aligned window admits exactly its first `reqs` counted requests. */
  lemma {:induction false} FirstRequestsOfTheWindow(tr: seq<Request>, q: Request)
    requires Consistent(tr, q.limit) && Timed(q)
    ensures Admitted(After(tr), q) <==> !q.reply.Answered? || Tally(tr, q) < q.limit.reqs
  {
    CounterHoldsTally(tr, q);
  }

  // ---------------------------------------------------------------- any span of one window's length

  function Cap(l: Limit): nat {
    if l.reqs < 0 then 0 else l.reqs
  }

  /** The answered and admitted requests of `tr` that satisfy `p`. */
  function Passed(tr: seq<Request>, p: Request -> bool): nat
    requires forall i | 0 <= i < |tr| :: Timed(tr[i])
  {
    if tr == [] then 0
    else
      var init, r := tr[..|tr| - 1], tr[|tr| - 1];
      assert Timed(r);
      Passed(init, p) + if r.reply.Answered? && p(r) && Admitted(After(init), r) then 1 else 0
  }

  function InWindowOf(q: Request): Request -> bool {
    (r: Request) => Same(r, q)
  }

  /** Requests of one limit and client that read the clock in the span from `q.at`, of one
      window's length, its end excluded. */
  function InSpanOf(q: Request): Request -> bool {
    (r: Request) => r.limit.name == q.limit.name && r.ip == q.ip && q.at <= r.at < q.at + Length(q.limit)
  }

  predicate NoneLost(tr: seq<Request>) {
    forall i | 0 <= i < |tr| :: !tr[i].reply.Lost?
  }

  lemma {:induction false} WindowAdmits(tr: seq<Request>, q: Request)
    requires Consistent(tr, q.limit) && Timed(q)
    ensures Passed(tr, InWindowOf(q)) <= Cap(q.limit) && Passed(tr, InWindowOf(q)) <= Tally(tr, q)
    ensures NoneLost(tr) ==>
              Passed(tr, InWindowOf(q)) == if Tally(tr, q) < Cap(q.limit) then Tally(tr, q) else Cap(q.limit)
  {
    if tr != [] {
      var init, r := tr[..|tr| - 1], tr[|tr| - 1];
      WindowAdmits(init, q);
      if Same(r, q) {
        FirstRequestsOfTheWindow(init, r);
        SameTally(init, r, q);
      }
    }
  }

  lemma {:induction false} SameTally(tr: seq<Request>, r: Request, q: Request)
    requires Same(r, q)
    ensures Tally(tr, r) == Tally(tr, q)
  {
    if tr != [] {
      SameTally(tr[..|tr| - 1], r, q);
    }
  }

  lemma {:induction false} SpanMeetsTwoWindows(l: Limit, a: nat, t: nat)
    requires l.window > 0 && a <= t < a + Length(l)
    ensures Slot(l, a + Length(l)) == Slot(l, a) + 1
    ensures Slot(l, t) == Slot(l, a) || Slot(l, t) == Slot(l, a) + 1
  {
    SlotBounds(l, a);
    SlotBounds(l, t);
    SlotBounds(l, a + Length(l));
    var n, i, j, k := Length(l), Slot(l, a), Slot(l, t), Slot(l, a + Length(l));
    Between(i, k, a + n, n);
    if t < i * n + n {
      Unique(i, j, t, n);
    } else {
      assert (i + 1) * n == i * n + n;
      Unique(i + 1, j, t, n);
    }
  }

  lemma {:induction false} Between(i: int, k: int, t: int, n: nat)
    requires n > 0 && i * n <= t - n < i * n + n && k * n <= t < k * n + n
    ensures k == i + 1
  {
    assert (i + 1) * n == i * n + n;
    Unique(i + 1, k, t, n);
  }

  lemma {:induction false} Unique(i: int, j: int, t: int, n: nat)
    requires n > 0 && i * n <= t < i * n + n && j * n <= t < j * n + n
    ensures i == j
  {
    Above(i, j, n);
    Above(j, i, n);
  }

  lemma {:induction false} Above(i: int, j: int, n: nat)
    ensures i > j ==> i * n >= j * n + n
  {
    assert i * n - j * n - n == (i - j - 1) * n;
  }

  lemma {:induction false} SpanWithinTwoWindows(tr: seq<Request>, q: Request, next: Request)
    requires Consistent(tr, q.limit) && Timed(q)
    requires next == q.(at := q.at + Length(q.limit), when := q.when + Length(q.limit))
    ensures Passed(tr, InSpanOf(q)) <= Passed(tr, InWindowOf(q)) + Passed(tr, InWindowOf(next))
  {
    if tr != [] {
      var r := tr[|tr| - 1];
      SpanWithinTwoWindows(tr[..|tr| - 1], q, next);
      if InSpanOf(q)(r) {
        SpanMeetsTwoWindows(q.limit, q.at, r.at);
        assert Same(r, q) || Same(r, next);
      }
    }
  }

  /** Any half-open span of one window's length, aligned or not, admits at most twice `reqs`. */
  lemma {:induction false} SlidingBound(tr: seq<Request>, q: Request)
    requires Consistent(tr, q.limit) && Timed(q)
    ensures Passed(tr, InSpanOf(q)) <= 2 * Cap(q.limit)
  {
    var next := q.(at := q.at + Length(q.limit), when := q.when + Length(q.limit), expiry := None);
    var next' := q.(at := q.at + Length(q.limit), when := q.when + Length(q.limit));
    SpanWithinTwoWindows(tr, q, next');
    WindowAdmits(tr, q);
    WindowAdmits(tr, next);
    SamePassed(tr, next, next');
  }

  lemma {:induction false} SamePassed(tr: seq<Request>, q: Request, q': Request)
    requires forall i | 0 <= i < |tr| :: Timed(tr[i])
    requires q.limit == q'.limit && q.ip == q'.ip && q.at == q'.at
    ensures Passed(tr, InWindowOf(q)) == Passed(tr, InWindowOf(q'))
  {
    if tr != [] {
      SamePassed(tr[..|tr| - 1], q, q');
    }
  }

  // ---------------------------------------------------------------- the bound is reached

  function Burst(r: Request, n: nat): seq<Request> {
    seq(n, _ => r)
  }

  lemma {:induction false} TallyOfBurst(tr: seq<Request>, r: Request, n: nat, q: Request)
    requires r.reply.Answered?
    ensures Tally(tr + Burst(r, n), q) == Tally(tr, q) + if Same(r, q) then n else 0
  {
    if n == 0 {
      assert tr + Burst(r, 0) == tr;
    } else {
      assert (tr + Burst(r, n))[..|tr| + n - 1] == tr + Burst(r, n - 1);
      TallyOfBurst(tr, r, n - 1, q);
    }
  }

  /** `reqs` requests on either side of a window boundary, one nanosecond apart, all pass: the
      sliding bound is reached within one span. */
  lemma {:induction false} BoundIsReached(l: Limit, ip: string, slot: nat)
    requires l.window > 0 && ':' !in l.name && l.reqs >= 0
    ensures var edge := (slot + 1) * Length(l);
            var before := Request(l, ip, edge - 1, edge - 1, Answered, Some(edge - 1));
            var after := Request(l, ip, edge, edge, Answered, Some(edge));
            var tr := Burst(before, l.reqs) + Burst(after, l.reqs);
            && Consistent(tr, l)
            && Passed(tr, InSpanOf(before)) == 2 * l.reqs
  {
    var edge := (slot + 1) * Length(l);
    var before := Request(l, ip, edge - 1, edge - 1, Answered, Some(edge - 1));
    var after := Request(l, ip, edge, edge, Answered, Some(edge));
    EdgeSlots(l, slot);
    BurstsPass(l, before, after);
  }

  lemma {:induction false} BurstsPass(l: Limit, before: Request, after: Request)
    requires Timed(before) && Timed(after) && before.limit == after.limit == l && before.ip == after.ip && l.reqs >= 0
    requires before.reply.Answered? && after.reply.Answered? && after.at == before.at + 1
    requires Slot(l, after.at) == Slot(l, before.at) + 1
    ensures var tr := Burst(before, l.reqs) + Burst(after, l.reqs);
            Consistent(tr, l) && Passed(tr, InSpanOf(before)) == 2 * l.reqs
  {
    hide Slot, Tally, Passed, KeyOf;
    var tr := Burst(before, l.reqs) + Burst(after, l.reqs);
    TwoBursts(before, after, l.reqs);
    AtLeastTwo(l);
    WindowAdmits(tr, before);
    WindowAdmits(tr, after);
    SpanSplits(tr, before, after);
  }

  lemma {:induction false} AtLeastTwo(l: Limit)
    requires l.window > 0
    ensures Length(l) >= 2
  {
  }

  /** Requests that are all of the one window or of the other, and all in a span, are counted there once each. */
  lemma {:induction false} SpanSplits(tr: seq<Request>, q: Request, next: Request)
    requires forall i | 0 <= i < |tr| :: Timed(tr[i]) && InSpanOf(q)(tr[i]) && (Same(tr[i], q) || Same(tr[i], next))
    requires !Same(q, next) && q.limit.window > 0 && next.limit.window > 0
    ensures Passed(tr, InSpanOf(q)) == Passed(tr, InWindowOf(q)) + Passed(tr, InWindowOf(next))
  {
    if tr != [] {
      SpanSplits(tr[..|tr| - 1], q, next);
      assert !(Same(tr[|tr| - 1], q) && Same(tr[|tr| - 1], next));
    }
  }

  lemma {:induction false} EdgeSlots(l: Limit, slot: nat)
    requires l.window > 0
    ensures var edge := (slot + 1) * Length(l); edge >= 1 && Slot(l, edge - 1) == slot && Slot(l, edge) == slot + 1
  {
    var n := Length(l);
    var edge := (slot + 1) * n;
    assert edge == slot * n + n;
    SlotBounds(l, edge - 1);
    SlotBounds(l, edge);
    Unique(slot, Slot(l, edge - 1), edge - 1, n);
    Unique(slot + 1, Slot(l, edge), edge, n);
  }

  lemma {:induction false} TwoBursts(a: Request, b: Request, n: nat)
    requires a.reply.Answered? && b.reply.Answered? && a.limit.window > 0 && b.limit.window > 0 && !Same(a, b)
    ensures Tally(Burst(a, n) + Burst(b, n), a) == n && Tally(Burst(a, n) + Burst(b, n), b) == n
  {
    assert [] + Burst(a, n) == Burst(a, n);
    TallyOfBurst([], a, n, a);
    TallyOfBurst([], a, n, b);
    TallyOfBurst(Burst(a, n), b, n, a);
    TallyOfBurst(Burst(a, n), b, n, b);
  }

  // ---------------------------------------------------------------- the middleware

  class Redis {
    var db: Db

    constructor ()
      ensures db == map[]
    {
      db := map[];
    }

    /** Redis's INCR at time `when`, unless the request does not reach it. */
    method Incr(key: string, when: nat, reply: Reply) returns (count: Option<nat>)
      modifies this
      ensures db == if reply.Refused? then old(db) else Bump(old(db), key, when)
      ensures count == if reply.Answered? then Some(db[key].count) else None
    {
      if reply.Refused? {
        return None;
      }
      if Live(db, key, when) {
        db := db[key := db[key].(count := db[key].count + 1)];
      } else {
        db := db[key := Counter(1, None)];
      }
      count := if reply.Answered? then Some(db[key].count) else None;
    }

    method Expire(key: string, ttl: nat, when: nat)
      requires key in db
      modifies this
      ensures db == old(db)[key := old(db)[key].(expires := Some(when + ttl))]
    {
      db := db[key := db[key].(expires := Some(when + ttl))];
    }
  }

  /** One request through the middleware. */
  method RateLimitByIP(rdb: Redis, r: Request) returns (admitted: bool)
    requires r.limit.window > 0
    modifies rdb
    ensures rdb.db == Step(old(rdb.db), r) && (admitted <==> Admitted(old(rdb.db), r))
    ensures r.reply.Answered? && !Live(old(rdb.db), KeyOf(r), r.when) && r.expiry.Some? ==>
              KeyOf(r) in rdb.db
                && rdb.db[KeyOf(r)] == Counter(1, Some(r.expiry.value + r.limit.window * SECOND + SECOND))
    ensures !r.reply.Answered? ==> admitted
  {
    var key := Key(r.limit.name, r.ip, WindowStart(r.limit, r.at));
    var count := rdb.Incr(key, r.when, r.reply);
    if count.None? {
      return true;
    }
    if count.value == 1 && r.expiry.Some? {
      rdb.Expire(key, r.limit.window * SECOND + SECOND, r.expiry.value);
    }
    admitted := !(count.value > r.limit.reqs);
  }

  /** Any requests, in the order Redis runs them, from an empty Redis: each window lets its
      first `reqs` through, and whatever Redis did not answer. */
  method ServeAll(tr: seq<Request>) returns (admitted: seq<bool>)
    requires forall i | 0 <= i < |tr| :: Consistent(tr, tr[i].limit)
    ensures |admitted| == |tr|
    ensures forall i | 0 <= i < |tr| ::
              admitted[i] <==> !tr[i].reply.Answered? || Tally(tr[..i], tr[i]) < tr[i].limit.reqs
  {
    var rdb := new Redis();
    admitted := [];
    for i := 0 to |tr|
      invariant |admitted| == i && rdb.db == After(tr[..i])
      invariant forall k | 0 <= k < i ::
                  admitted[k] <==> !tr[k].reply.Answered? || Tally(tr[..k], tr[k]) < tr[k].limit.reqs
    {
      assert Consistent(tr, tr[i].limit) && Timed(tr[i]);
      FirstRequestsOfTheWindow(tr[..i], tr[i]);
      var ok := RateLimitByIP(rdb, tr[i]);
      assert tr[..i + 1][..i] == tr[..i];
      admitted := admitted + [ok];
    }
  }
}
