/** Recording traffic and checking the quota, one request at a time. */
module Traffic {
  import opened Common
  import opened Ledger

  class TrafficRepository {
    var rows: seq<Row>

    constructor ()
      ensures rows == []
    {
      rows := [];
    }

    /** Adds to the day's row, or creates it; the update and the creation can each fail, and
        then nothing is written. */
    method UpsertDaily(user: UserId, today: Day, b: Bytes, updates: bool, creates: bool) returns (ok: bool)
      modifies this
      ensures ok <==> updates && (Matches(old(rows), user, today) || creates)
      ensures rows == if ok then Upsert(old(rows), user, today, b) else old(rows)
    {
      if !updates {
        return false;
      }
      var updated: seq<Row> := [];
      var affected := 0;
      for i := 0 to |rows|
        invariant rows == old(rows) && updated == AddTo(rows[..i], user, today, b)
        invariant affected > 0 <==> exists j :: 0 <= j < i && For(rows[j], user, today)
      {
        assert rows[..i + 1][..i] == rows[..i];
        if rows[i].user == user && rows[i].day == today {
          updated := updated + [rows[i].(bytes := Plus(rows[i].bytes, b))];
          affected := affected + 1;
        } else {
          updated := updated + [rows[i]];
        }
      }
      assert rows[..|rows|] == rows;
      if affected > 0 {
        rows := updated;
        return true;
      }
      if !creates {
        return false;
      }
      rows := rows + [Row(user, today, b)];
      ok := true;
    }

    /** None when the rows cannot be read. */
    method GetPeriodTotal(user: UserId, since: Day, readable: bool) returns (totals: Option<(int, int)>)
      ensures totals.Some? <==> readable
      ensures readable ==> totals.value == (PeriodTotal(rows, user, since, In), PeriodTotal(rows, user, since, Out))
    {
      if !readable {
        return None;
      }
      var received, sent := 0, 0;
      for i := 0 to |rows|
        invariant received == PeriodTotal(rows[..i], user, since, In)
        invariant sent == PeriodTotal(rows[..i], user, since, Out)
      {
        assert rows[..i + 1][..i] == rows[..i];
        if rows[i].user == user && rows[i].day >= since {
          received, sent := received + rows[i].bytes.received, sent + rows[i].bytes.sent;
        }
      }
      assert rows[..|rows|] == rows;
      totals := Some((received, sent));
    }
  }

  class TrafficService {
    const trafficRepo: TrafficRepository
    var subs: map<UserId, Subscription>

    constructor (repo: TrafficRepository)
      ensures trafficRepo == repo && subs == map[]
    {
      trafficRepo, subs := repo, map[];
    }

    ghost function Tables(): State
      reads this, trafficRepo
    {
      State(trafficRepo.rows, subs)
    }

    /** The daily row first, then the running total; `updates` and `creates` say whether the
        daily writes work, `bills` whether the second write does. */
    method RecordUsage(user: UserId, today: Day, b: Bytes, updates: bool, creates: bool, bills: bool) returns (ok: bool)
      modifies this, trafficRepo
      ensures var daily := updates && (Matches(old(trafficRepo.rows), user, today) || creates);
              Tables() == Next(old(Tables()), Usage(user, today, b, daily, bills))
                && (ok <==> IsZero(b) || (daily && bills))
    {
      if b.received == 0 && b.sent == 0 {
        return true;
      }
      ok := trafficRepo.UpsertDaily(user, today, b, updates, creates);
      if !ok {
        return;
      }
      var total := b.received + b.sent;
      if !bills {
        return false;
      }
      if user in subs {
        subs := subs[user := subs[user].(used := subs[user].used + total)];
      }
    }

    /** None when the subscription cannot be read. */
    method CheckQuota(user: UserId, now: int, readable: bool) returns (verdict: Option<Verdict>)
      ensures verdict == if readable then Some(Quota(Tables(), user, now)) else None
      ensures readable ==>
                && (verdict == Some(Expired) <==>
                      user in subs && subs[user].expires.Some? && subs[user].expires.value < now)
                && (verdict == Some(Exceeded) <==>
                      && user in subs && (subs[user].expires.Some? ==> now <= subs[user].expires.value)
                      && subs[user].used >= subs[user].quota)
    {
      if !readable {
        return None;
      }
      if user !in subs {
        return Some(Pass);
      }
      var sub := subs[user];
      if sub.expires.Some? && now > sub.expires.value {
        return Some(Expired);
      }
      if sub.quota - sub.used <= 0 {
        return Some(Exceeded);
      }
      verdict := Some(Pass);
    }
  }
}
