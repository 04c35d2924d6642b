/** Daily traffic rows against the events they sum, and the running total kept beside them. */
module Ledger {
  import opened Common

  type UserId = nat
  /** Days since some fixed day, in UTC. */
  type Day = int

  datatype Bytes = Bytes(received: int, sent: int)

  function Plus(a: Bytes, b: Bytes): Bytes {
    Bytes(a.received + b.received, a.sent + b.sent)
  }

  predicate IsZero(b: Bytes) {
    b.received == 0 && b.sent == 0
  }

  datatype Direction = In | Out

  function Amount(b: Bytes, d: Direction): int {
    if d.In? then b.received else b.sent
  }

  datatype Row = Row(user: UserId, day: Day, bytes: Bytes)

  datatype Subscription = Subscription(quota: int, used: int, expires: Option<int>)

  datatype State = State(rows: seq<Row>, subs: map<UserId, Subscription>)

  /** A recorded usage, with whether each of its two writes worked; or a change of subscription. */
  datatype Event =
    | Usage(user: UserId, day: Day, bytes: Bytes, daily: bool, total: bool)
    | Resubscribe(user: UserId, sub: Subscription)

  // ---------------------------------------------------------------- the daily upsert

  predicate For(row: Row, user: UserId, day: Day) {
    row.user == user && row.day == day
  }

  predicate Matches(rows: seq<Row>, user: UserId, day: Day) {
    exists i :: 0 <= i < |rows| && For(rows[i], user, day)
  }

  /** The update adds to every row of the user and day. */
  function AddTo(rows: seq<Row>, user: UserId, day: Day, b: Bytes): (r: seq<Row>)
    ensures |r| == |rows|
    ensures forall i | 0 <= i < |rows| ::
              r[i] == if For(rows[i], user, day) then rows[i].(bytes := Plus(rows[i].bytes, b)) else rows[i]
  {
    if rows == [] then []
    else
      var k := |rows| - 1;
      AddTo(rows[..k], user, day, b)
        + [if For(rows[k], user, day) then rows[k].(bytes := Plus(rows[k].bytes, b)) else rows[k]]
  }

  function Upsert(rows: seq<Row>, user: UserId, day: Day, b: Bytes): seq<Row> {
    if Matches(rows, user, day) then AddTo(rows, user, day, b) else rows + [Row(user, day, b)]
  }

  function Spend(subs: map<UserId, Subscription>, user: UserId, b: Bytes): map<UserId, Subscription> {
    if user in subs then subs[user := subs[user].(used := subs[user].used + b.received + b.sent)] else subs
  }

  /** A usage of nothing writes nothing; a failed daily write prevents the running total's. */
  function Next(s: State, e: Event): State {
    match e
    case Usage(user, day, b, daily, total) =>
      if IsZero(b) || !daily then s
      else State(Upsert(s.rows, user, day, b), if total then Spend(s.subs, user, b) else s.subs)
    case Resubscribe(user, sub) => s.(subs := s.subs[user := sub])
  }

  function Play(s: State, tr: seq<Event>): State {
    if tr == [] then s else Next(Play(s, tr[..|tr| - 1]), tr[|tr| - 1])
  }

  // ---------------------------------------------------------------- one row per user and day

  predicate UniqueDays(rows: seq<Row>) {
    forall i, j | 0 <= i < j < |rows| :: rows[i].user != rows[j].user || rows[i].day != rows[j].day
  }

  lemma {:induction false} UniqueDaysKept(s: State, tr: seq<Event>)
    requires UniqueDays(s.rows)
    ensures UniqueDays(Play(s, tr).rows)
  {
    if tr != [] {
      UniqueDaysKept(s, tr[..|tr| - 1]);
    }
  }

  // ---------------------------------------------------------------- totals

  /** The sum of one column over the user's rows dated in the period. */
  function PeriodTotal(rows: seq<Row>, user: UserId, since: Day, d: Direction): int {
    if rows == [] then 0 else PeriodTotal(rows[..|rows| - 1], user, since, d) + Share(rows[|rows| - 1], user, since, d)
  }

  function Share(row: Row, user: UserId, since: Day, d: Direction): int {
    if row.user == user && row.day >= since then Amount(row.bytes, d) else 0
  }

  /** What the events of the user, dated in the period, recorded. */
  function Recorded(tr: seq<Event>, user: UserId, since: Day, d: Direction): int {
    if tr == [] then 0
    else
      var e := tr[|tr| - 1];
      Recorded(tr[..|tr| - 1], user, since, d)
      + if e.Usage? && e.daily then Share(Row(e.user, e.day, e.bytes), user, since, d) else 0
  }

  /** A period begins with its first day and takes in every row of the user from then on. */
  lemma {:induction false} PeriodTotalMeans(rows: seq<Row>, row: Row, user: UserId, since: Day)
    ensures PeriodTotal(rows + [row], user, since, In)
         == PeriodTotal(rows, user, since, In) + if row.user == user && since <= row.day then row.bytes.received else 0
    ensures PeriodTotal(rows + [row], user, since, Out)
         == PeriodTotal(rows, user, since, Out) + if row.user == user && since <= row.day then row.bytes.sent else 0
  {
    assert (rows + [row])[..|rows|] == rows;
  }

  lemma {:induction false} AddToTotal(rows: seq<Row>, row: Row, user: UserId, since: Day, d: Direction)
    requires UniqueDays(rows)
    ensures PeriodTotal(AddTo(rows, row.user, row.day, row.bytes), user, since, d)
         == PeriodTotal(rows, user, since, d)
           + if Matches(rows, row.user, row.day) then Share(row, user, since, d) else 0
  {
    if rows != [] {
      var k := |rows| - 1;
      var init := rows[..k];
      AddToTotal(init, row, user, since, d);
      assert AddTo(rows, row.user, row.day, row.bytes)[..k] == AddTo(init, row.user, row.day, row.bytes);
      MatchesLast(rows, row.user, row.day);
    }
  }

  /** A matching last row is the only one. */
  lemma {:induction false} MatchesLast(rows: seq<Row>, user: UserId, day: Day)
    requires rows != [] && UniqueDays(rows)
    ensures var init, last := rows[..|rows| - 1], rows[|rows| - 1];
            if For(last, user, day) then Matches(rows, user, day) && !Matches(init, user, day)
            else Matches(rows, user, day) <==> Matches(init, user, day)
  {
    var init := rows[..|rows| - 1];
    assert forall i | 0 <= i < |init| :: init[i] == rows[i];
    if Matches(init, user, day) {
      var i :| 0 <= i < |init| && For(init[i], user, day);
      assert For(rows[i], user, day);
    }
  }

  lemma {:induction false} UpsertTotal(rows: seq<Row>, row: Row, user: UserId, since: Day, d: Direction)
    requires UniqueDays(rows)
    ensures PeriodTotal(Upsert(rows, row.user, row.day, row.bytes), user, since, d)
            == PeriodTotal(rows, user, since, d) + Share(row, user, since, d)
  {
    if Matches(rows, row.user, row.day) {
      AddToTotal(rows, row, user, since, d);
    } else {
      assert (rows + [row])[..|rows|] == rows;
    }
  }

  /** The period total of the rows grows by exactly the events dated in the period. */
  lemma {:induction false} RowsSumEvents(s: State, tr: seq<Event>, user: UserId, since: Day, d: Direction)
    requires UniqueDays(s.rows)
    ensures PeriodTotal(Play(s, tr).rows, user, since, d)
            == PeriodTotal(s.rows, user, since, d) + Recorded(tr, user, since, d)
  {
    if tr != [] {
      var init, e := tr[..|tr| - 1], tr[|tr| - 1];
      RowsSumEvents(s, init, user, since, d);
      UniqueDaysKept(s, init);
      if e.Usage? && e.daily {
        UpsertTotal(Play(s, init).rows, Row(e.user, e.day, e.bytes), user, since, d);
      }
    }
  }

  // ---------------------------------------------------------------- the running total

  predicate KeepsSubscription(tr: seq<Event>, user: UserId) {
    forall i | 0 <= i < |tr| :: tr[i].Usage? || tr[i].user != user
  }

  predicate Adds(e: Event) {
    e.Usage? ==> e.bytes.received >= 0 && e.bytes.sent >= 0
  }

  predicate NonNegative(tr: seq<Event>) {
    forall i | 0 <= i < |tr| :: Adds(tr[i])
  }

  function Sum(b: Bytes): int {
    b.received + b.sent
  }

  /** What the event added to the user's rows, on whatever day. */
  function RowBytes(e: Event, user: UserId): int {
    if e.Usage? && e.daily && e.user == user then Sum(e.bytes) else 0
  }

  /** What it added to them without adding it to the running total. */
  function LostBytes(e: Event, user: UserId): int {
    if e.Usage? && e.total then 0 else RowBytes(e, user)
  }

  function AllRecorded(tr: seq<Event>, user: UserId): int {
    if tr == [] then 0 else AllRecorded(tr[..|tr| - 1], user) + RowBytes(tr[|tr| - 1], user)
  }

  function Unbilled(tr: seq<Event>, user: UserId): int {
    if tr == [] then 0 else Unbilled(tr[..|tr| - 1], user) + LostBytes(tr[|tr| - 1], user)
  }

  /** The running total of a subscription grows by the daily rows' growth less what it missed. */
  lemma {:induction false} UsedFollowsRows(s: State, tr: seq<Event>, user: UserId)
    requires user in s.subs && KeepsSubscription(tr, user)
    ensures user in Play(s, tr).subs
    ensures var sub := Play(s, tr).subs[user];
            && sub.used == s.subs[user].used + AllRecorded(tr, user) - Unbilled(tr, user)
            && sub.quota == s.subs[user].quota && sub.expires == s.subs[user].expires
  {
    if tr != [] {
      UsedFollowsRows(s, tr[..|tr| - 1], user);
    }
  }

  predicate Billed(e: Event, user: UserId) {
    e.Usage? && e.user == user && e.daily && !IsZero(e.bytes) ==> e.total
  }

  lemma {:induction false} LostBytesBounds(e: Event, user: UserId)
    requires Adds(e)
    ensures 0 <= LostBytes(e, user) <= RowBytes(e, user)
    ensures LostBytes(e, user) == 0 <==> Billed(e, user)
  {
  }

  lemma {:induction false} UnbilledBounds(tr: seq<Event>, user: UserId)
    requires NonNegative(tr)
    ensures 0 <= Unbilled(tr, user) <= AllRecorded(tr, user)
    ensures Unbilled(tr, user) == 0 <==> AllBilled(tr, user)
  {
    if tr != [] {
      LostBytesBounds(tr[|tr| - 1], user);
      UnbilledBounds(tr[..|tr| - 1], user);
      AllBilledSplit(tr, user);
    }
  }

  /** No recorded usage of the user lost its second write. */
  predicate AllBilled(tr: seq<Event>, user: UserId) {
    forall i | 0 <= i < |tr| :: Billed(tr[i], user)
  }

  lemma {:induction false} AllBilledSplit(tr: seq<Event>, user: UserId)
    requires tr != []
    ensures AllBilled(tr, user) <==> AllBilled(tr[..|tr| - 1], user) && Billed(tr[|tr| - 1], user)
  {
    assert tr == tr[..|tr| - 1] + [tr[|tr| - 1]];
  }

  /** `bandwidth_used` never grows by more than the daily rows, and by exactly as much exactly
      when no recorded usage of the user lost its second write. */
  lemma {:induction false} UsedNeverOutgrowsRows(s: State, tr: seq<Event>, user: UserId)
    requires user in s.subs && KeepsSubscription(tr, user) && NonNegative(tr)
    ensures user in Play(s, tr).subs
    ensures var growth := Play(s, tr).subs[user].used - s.subs[user].used;
            && 0 <= growth <= AllRecorded(tr, user)
            && (growth == AllRecorded(tr, user) <==> AllBilled(tr, user))
  {
    UsedFollowsRows(s, tr, user);
    UnbilledBounds(tr, user);
  }

  // ---------------------------------------------------------------- the quota gate

  datatype Verdict = Pass | Expired | Exceeded

  /** A user without a subscription passes. */
  function Quota(s: State, user: UserId, now: int): Verdict {
    if user !in s.subs then Pass
    else
      var sub := s.subs[user];
      if sub.expires.Some? && now > sub.expires.value then Expired
      else if sub.quota - sub.used <= 0 then Exceeded
      else Pass
  }

  /** A refusal persists, however usage goes on and time passes, until the subscription changes. */
  lemma {:induction false} RefusalPersists(s: State, tr: seq<Event>, user: UserId, now: int, later: int)
    requires KeepsSubscription(tr, user) && NonNegative(tr) && now <= later && Quota(s, user, now) != Pass
    ensures Quota(Play(s, tr), user, later) != Pass
  {
    UsedNeverOutgrowsRows(s, tr, user);
    UsedFollowsRows(s, tr, user);
  }

  lemma {:induction false} AllRecordedIsATotal(tr: seq<Event>, user: UserId, since: Day)
    requires forall i | 0 <= i < |tr| :: tr[i].Usage? && tr[i].user == user ==> tr[i].day >= since
    ensures AllRecorded(tr, user) == Recorded(tr, user, since, In) + Recorded(tr, user, since, Out)
  {
    if tr != [] {
      AllRecordedIsATotal(tr[..|tr| - 1], user, since);
    }
  }

  /** Gate and rows agree: from any table in which the user's running total is the rows' total since
      some day, and as long as every second write works, an unexpired user is refused exactly
      when the rows' total has reached the quota. */
  lemma {:induction false} GateReadsTheRows(s: State, tr: seq<Event>, user: UserId, now: int, since: Day)
    requires UniqueDays(s.rows) && user in s.subs && KeepsSubscription(tr, user) && NonNegative(tr)
    requires AllBilled(tr, user)
    requires s.subs[user].used == PeriodTotal(s.rows, user, since, In) + PeriodTotal(s.rows, user, since, Out)
    requires forall i | 0 <= i < |tr| :: tr[i].Usage? && tr[i].user == user ==> tr[i].day >= since
    requires Quota(s, user, now) != Expired
    ensures var t := Play(s, tr);
            Quota(t, user, now) == Exceeded <==>
              PeriodTotal(t.rows, user, since, In) + PeriodTotal(t.rows, user, since, Out) >= s.subs[user].quota
  {
    UsedNeverOutgrowsRows(s, tr, user);
    UsedFollowsRows(s, tr, user);
    RowsSumEvents(s, tr, user, since, In);
    RowsSumEvents(s, tr, user, since, Out);
    AllRecordedIsATotal(tr, user, since);
  }
}
