/** The signed REST client: one logical call is up to four sends of the same request. */
module OciClient {
  import opened Common
  import opened OciCloud

  const MAX_ATTEMPTS: int := 4
  const SECOND: int := 1_000_000_000

  /** What a caller of the client sees: the reply kept, or the context's own error. */
  datatype CallResult = Replied(reply: Reply) | ContextDone

  predicate IsNotFound(r: CallResult) {
    r.Replied? && r.reply.ApiError? && r.reply.status == 404
  }

  predicate IsConflict(r: CallResult) {
    r.Replied? && r.reply.ApiError? && r.reply.status == 409
  }

  predicate Succeeded(r: CallResult) {
    r.Replied? && r.reply.Ok?
  }

  /** Throttling, server errors and everything that is not an API error are sent again. */
  predicate Retryable(r: Reply) {
    r.Lost? || (r.ApiError? && (r.status == 429 || r.status >= 500))
  }

  /** The events of one call: at least one and at most four sends of one request, every
      one but the last with a retryable reply. */
  ghost predicate IsCall(tr: seq<Event>, req: Request) {
    && 1 <= |tr| <= MAX_ATTEMPTS
    && (forall i | 0 <= i < |tr| :: tr[i].req == req)
    && (forall i | 0 <= i < |tr| - 1 :: Retryable(tr[i].reply))
  }

  /** How a call's result follows from its events: the first reply that is not retryable,
      the last one once four sends are used up, or the context's error between sends. */
  ghost predicate Concludes(tr: seq<Event>, r: CallResult)
    requires tr != []
  {
    match r
    case Replied(reply) => reply == tr[|tr| - 1].reply && (Retryable(reply) ==> |tr| == MAX_ATTEMPTS)
    case ContextDone => Retryable(tr[|tr| - 1].reply) && |tr| < MAX_ATTEMPTS
  }

  /** The events of calls in a row, each of them one request `req`, that returned `rs`. */
  ghost predicate AreCalls(tr: seq<Event>, req: Request, rs: seq<CallResult>)
    decreases |rs|
  {
    if rs == [] then tr == []
    else exists k :: 0 <= k < |tr| && AreCalls(tr[..k], req, rs[..|rs| - 1]) && Returned(tr[k..], req, rs[|rs| - 1])
  }

  /** One call and what it returned. */
  ghost predicate Returned(tr: seq<Event>, req: Request, r: CallResult) {
    IsCall(tr, req) && Concludes(tr, r)
  }

  lemma {:induction false} OneMoreCall(tr: seq<Event>, call: seq<Event>, req: Request, rs: seq<CallResult>,
                                       r: CallResult)
    requires AreCalls(tr, req, rs) && Returned(call, req, r)
    ensures AreCalls(tr + call, req, rs + [r])
  {
    CallBounds(call, req, r);
    hide Returned;
    assert (tr + call)[..|tr|] == tr && (tr + call)[|tr|..] == call;
    assert (rs + [r])[..|rs|] == rs;
  }

  lemma {:induction false} ThatCall(tr: seq<Event>, req: Request, r: CallResult)
    requires AreCalls(tr, req, [r])
    ensures Returned(tr, req, r)
  {
    hide Returned;
    assert [r][..0] == [];
    var k :| 0 <= k < |tr| && AreCalls(tr[..k], req, [r][..0]) && Returned(tr[k..], req, r);
    assert tr[k..] == tr;
  }

  lemma {:induction false} CallBounds(tr: seq<Event>, req: Request, r: CallResult)
    requires Returned(tr, req, r)
    ensures 1 <= |tr| <= MAX_ATTEMPTS && forall i | 0 <= i < |tr| :: tr[i].req == req
  {
  }

  lemma {:induction false} PartsHold(tr: seq<Event>, k: nat, p: Event -> bool)
    requires k <= |tr| && (forall i | 0 <= i < k :: p(tr[..k][i])) && (forall i | 0 <= i < |tr| - k :: p(tr[k..][i]))
    ensures forall i | 0 <= i < |tr| :: p(tr[i])
  {
    assert forall i | 0 <= i < |tr| :: tr[i] == if i < k then tr[..k][i] else tr[k..][i - k];
  }

  /** So many calls send at least as many and at most four times as many requests. */
  lemma {:induction false} CallsBound(tr: seq<Event>, req: Request, rs: seq<CallResult>)
    requires AreCalls(tr, req, rs)
    ensures |rs| <= |tr| <= MAX_ATTEMPTS * |rs| && forall i | 0 <= i < |tr| :: tr[i].req == req
    decreases |rs|
  {
    hide Returned;
    if rs != [] {
      var init, r := rs[..|rs| - 1], rs[|rs| - 1];
      var k :| 0 <= k < |tr| && AreCalls(tr[..k], req, init) && Returned(tr[k..], req, r);
      CallsBound(tr[..k], req, init);
      CallBounds(tr[k..], req, r);
      PartsHold(tr, k, (e: Event) => e.req == req);
    }
  }

  /** Nothing in the run was answered by a reply of this kind. */
  ghost predicate Never(tr: seq<Event>, kind: Reply -> bool) {
    forall i | 0 <= i < |tr| :: !kind(tr[i].reply)
  }

  lemma {:induction false} CallNever(tr: seq<Event>, req: Request, r: CallResult, kind: Reply -> bool)
    requires Returned(tr, req, r) && (r.Replied? ==> !kind(r.reply))
    requires forall reply :: kind(reply) ==> !Retryable(reply)
    ensures Never(tr, kind)
  {
  }

  /** An answer that is not worth another try is what some call returned. */
  lemma {:induction false} CallsNever(tr: seq<Event>, req: Request, rs: seq<CallResult>, kind: Reply -> bool)
    requires AreCalls(tr, req, rs) && (forall i | 0 <= i < |rs| :: rs[i].Replied? ==> !kind(rs[i].reply))
    requires forall reply :: kind(reply) ==> !Retryable(reply)
    ensures Never(tr, kind)
    decreases |rs|
  {
    hide Returned, Retryable;
    if rs != [] {
      var init, r := rs[..|rs| - 1], rs[|rs| - 1];
      var k :| 0 <= k < |tr| && AreCalls(tr[..k], req, init) && Returned(tr[k..], req, r);
      CallsNever(tr[..k], req, init, kind);
      CallNever(tr[k..], req, r, kind);
      PartsHold(tr, k, (e: Event) => !kind(e.reply));
    }
  }

  /** Sends of `req` that are all worth another try. */
  ghost predicate Retried(tr: seq<Event>, req: Request) {
    forall i | 0 <= i < |tr| :: tr[i].req == req && Retryable(tr[i].reply)
  }

  /** `b` is `a` and one more send of `req`, answered `reply`. */
  ghost predicate Sent(a: seq<Event>, b: seq<Event>, req: Request, reply: Reply) {
    |b| == |a| + 1 && b[..|a|] == a && b[|a|].req == req && b[|a|].reply == reply
  }

  lemma {:induction false} RetriedAgain(a: seq<Event>, b: seq<Event>, req: Request, reply: Reply)
    requires Retried(a, req) && Sent(a, b, req, reply) && |b| <= MAX_ATTEMPTS
    ensures Retryable(reply) ==> Retried(b, req)
    ensures !Retryable(reply) || |b| == MAX_ATTEMPTS ==> IsCall(b, req) && Concludes(b, Replied(reply))
  {
    assert forall i | 0 <= i < |a| :: b[i] == a[i];
  }

  lemma {:induction false} RetriedOff(tr: seq<Event>, req: Request)
    requires Retried(tr, req) && 0 < |tr| < MAX_ATTEMPTS
    ensures IsCall(tr, req) && Concludes(tr, ContextDone)
  {
  }

  /** The wait before send `n` is 2(n-1) seconds; this is the sum over a call of `sends` sends. */
  function Backoff(sends: nat): int {
    if sends <= 1 then 0 else Backoff(sends - 1) + (sends - 1) * 2 * SECOND
  }

  /** One exchange, appended to the run so far. */
  method DoOnce(cloud: Cloud, req: Request, ghost start: State, ghost sent: seq<Event>)
    returns (reply: Reply, ghost e: Event)
    requires cloud.Valid() && Run(cloud.topo, start, sent, cloud.st)
    modifies cloud
    ensures cloud.Valid() && cloud.Later() && cloud.slept == old(cloud.slept)
    ensures cloud.trace == old(cloud.trace) + [e] && e.req == req && e.reply == reply
    ensures Run(cloud.topo, start, sent + [e], cloud.st)
  {
    reply := cloud.Send(req);
    e := cloud.trace[|old(cloud.trace)|];
    assert Run(cloud.topo, old(cloud.st), [e], cloud.st);
    RunConcat(cloud.topo, start, sent, old(cloud.st), [e], cloud.st);
  }

  /** Waits, unless the context ends first; the run so far stays a run. */
  method Rest(cloud: Cloud, d: nat, ghost start: State, ghost sent: seq<Event>) returns (done: bool)
    requires cloud.Valid() && Run(cloud.topo, start, sent, cloud.st)
    modifies cloud
    ensures cloud.Valid() && cloud.Later() && cloud.trace == old(cloud.trace)
    ensures Run(cloud.topo, start, sent, cloud.st)
    ensures (done ==> cloud.cancelled) && cloud.slept == old(cloud.slept) + d
  {
    done := cloud.Wait(d);
    RunEvolves(cloud.topo, start, sent, old(cloud.st), cloud.st);
  }

  /** One turn of the loop: the wait owed before every send but the first, then the send. */
  method Try(cloud: Cloud, req: Request, attempt: int, ghost start: State, ghost sent: seq<Event>)
    returns (reply: Option<Reply>, ghost sent': seq<Event>)
    requires cloud.Valid() && Run(cloud.topo, start, sent, cloud.st)
    requires 1 <= attempt <= MAX_ATTEMPTS && |sent| == attempt - 1
    modifies cloud
    ensures cloud.Valid() && cloud.Later() && Run(cloud.topo, start, sent', cloud.st)
    ensures sent <= sent' && cloud.trace == old(cloud.trace) + sent'[|sent|..]
    ensures cloud.slept == old(cloud.slept) + if attempt > 1 then (attempt - 1) * 2 * SECOND else 0
    ensures reply.None? ==> cloud.cancelled && attempt > 1 && sent' == sent
    ensures reply.Some? ==> |sent'| == attempt && Sent(sent, sent', req, reply.value)
  {
    sent' := sent;
    if attempt > 1 {
      var done := Rest(cloud, (attempt - 1) * 2 * SECOND, start, sent);
      if done {
        return None, sent;
      }
    }
    var r, e := DoOnce(cloud, req, start, sent);
    reply, sent' := Some(r), sent + [e];
  }

  lemma {:induction false} NothingSent(cloud: Cloud, req: Request)
    ensures Run(cloud.topo, cloud.st, [], cloud.st) && Retried([], req)
  {
  }

  /** A success, or an API error other than 429 below 500, ends the call and is its result; any other
      reply is its result only as the fourth. */
  ghost predicate Settled(tr: seq<Event>, r: CallResult) {
    && tr != [] && (r.Replied? ==> r.reply == tr[|tr| - 1].reply)
    && forall i | 0 <= i < |tr| ::
         match tr[i].reply
         case Ok(_) => i == |tr| - 1 && r == Replied(tr[i].reply)
         case ApiError(status) =>
           if status < 500 && status != 429 then i == |tr| - 1 && r == Replied(tr[i].reply)
           else r.Replied? && i == |tr| - 1 ==> |tr| == 4
         case Lost => r.Replied? && i == |tr| - 1 ==> |tr| == 4
  }

  lemma {:induction false} ConcludedIsSettled(tr: seq<Event>, req: Request, r: CallResult)
    requires IsCall(tr, req) && Concludes(tr, r)
    ensures Settled(tr, r)
  {
  }

  lemma {:induction false} BackoffIsQuadratic(n: nat)
    requires 1 <= n <= MAX_ATTEMPTS
    ensures Backoff(n) == n * (n - 1) * SECOND
  {
    if n > 1 {
      BackoffIsQuadratic(n - 1);
    }
  }

  /** Sends `req` until a reply is not worth another try. */
  method Do(cloud: Cloud, req: Request) returns (r: CallResult, ghost sent: seq<Event>)
    requires cloud.Valid()
    modifies cloud
    ensures cloud.Valid() && cloud.Later()
    ensures cloud.trace == old(cloud.trace) + sent && IsCall(sent, req) && Concludes(sent, r)
    ensures Run(cloud.topo, old(cloud.st), sent, cloud.st)
    ensures r.ContextDone? ==> cloud.cancelled
    ensures Settled(sent, r)
    ensures r.Replied? ==> cloud.slept - old(cloud.slept) == |sent| * (|sent| - 1) * SECOND
    ensures cloud.slept - old(cloud.slept) <= 12 * SECOND
  {
    hide Run, IsCall, Concludes, Retried, Retryable, Settled;
    sent := [];
    NothingSent(cloud, req);
    var lastErr := Lost;
    var attempt := 1;
    while attempt <= MAX_ATTEMPTS
      invariant 1 <= attempt <= MAX_ATTEMPTS + 1 && |sent| == attempt - 1
      invariant cloud.Valid() && cloud.Later() && cloud.trace == old(cloud.trace) + sent
      invariant Retried(sent, req)
      invariant attempt > MAX_ATTEMPTS ==> IsCall(sent, req) && Concludes(sent, Replied(lastErr))
      invariant Run(cloud.topo, old(cloud.st), sent, cloud.st)
      invariant cloud.slept - old(cloud.slept) == Backoff(|sent|)
    {
      var reply;
      ghost var before := sent;
      reply, sent := Try(cloud, req, attempt, old(cloud.st), before);
      if reply.None? {
        RetriedOff(sent, req);
        ConcludedIsSettled(sent, req, ContextDone);
        return ContextDone, sent;
      }
      lastErr := reply.value;
      RetriedAgain(before, sent, req, lastErr);
      if !Retryable(lastErr) {
        ConcludedIsSettled(sent, req, Replied(lastErr));
        BackoffIsQuadratic(|sent|);
        return Replied(lastErr), sent;
      }
      attempt := attempt + 1;
    }
    r := Replied(lastErr);
    ConcludedIsSettled(sent, req, r);
    BackoffIsQuadratic(|sent|);
  }
}
