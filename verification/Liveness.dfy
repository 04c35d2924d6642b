/** How stale an online node can be: runs of heartbeats, sweeps and row writes. */
module Liveness {
  import opened Common
  import opened Nodes

  /** `Saved` is any write of a whole row: a creation, a registration, a change of address, each
      possibly from a copy read earlier. */
  datatype Event =
    | Beaten(now: int, id: NodeId, version: string)
    | Swept(now: int)
    | Saved(now: int, id: NodeId, node: Node)
    | Removed(now: int, id: NodeId)

  function Next(t: Table, e: Event, threshold: int): Table {
    match e
    case Beaten(now, id, version) => Beat(t, id, version, now)
    case Swept(now) => Sweep(t, now - threshold)
    case Saved(_, id, node) => t[id := node]
    case Removed(_, id) => t - {id}
  }

  function Play(t: Table, tr: seq<Event>, threshold: int): Table {
    if tr == [] then t else Next(Play(t, tr[..|tr| - 1], threshold), tr[|tr| - 1], threshold)
  }

  /** The clock does not run backwards, and has reached `end`. */
  predicate InOrder(tr: seq<Event>, end: int) {
    tr != [] ==> tr[|tr| - 1].now <= end && InOrder(tr[..|tr| - 1], tr[|tr| - 1].now)
  }

  function LastSweep(tr: seq<Event>): Option<int> {
    if tr == [] then None
    else if tr[|tr| - 1].Swept? then Some(tr[|tr| - 1].now)
    else LastSweep(tr[..|tr| - 1])
  }

  predicate SavedSinceSweep(tr: seq<Event>, id: NodeId) {
    && tr != [] && !tr[|tr| - 1].Swept?
    && ((tr[|tr| - 1].Saved? && tr[|tr| - 1].id == id) || SavedSinceSweep(tr[..|tr| - 1], id))
  }

  /** The heartbeat of an online node is no older than the cutoff of the last sweep. */
  lemma {:induction false} OnlineSinceSweep(t: Table, tr: seq<Event>, threshold: int, id: NodeId, end: int)
    requires InOrder(tr, end) && LastSweep(tr).Some? && !SavedSinceSweep(tr, id) && threshold >= 0
    ensures LastSweep(tr).value <= end
    ensures var u := Play(t, tr, threshold);
            id in u && u[id].status.Online? && u[id].lastHeartbeat.Some? ==>
              u[id].lastHeartbeat.value >= LastSweep(tr).value - threshold
  {
    var init, e := tr[..|tr| - 1], tr[|tr| - 1];
    if !e.Swept? {
      OnlineSinceSweep(t, init, threshold, id, e.now);
    }
  }

  /** With sweeps at most `interval` apart, a node that is online, has a heartbeat and has not
      been written since the last sweep was heard from within `threshold + interval`. */
  lemma {:induction false} HeartbeatAgeBound(t: Table, tr: seq<Event>, threshold: int, interval: int, id: NodeId,
                                             end: int)
    requires InOrder(tr, end) && threshold >= 0 && LastSweep(tr).Some? && end - LastSweep(tr).value <= interval
    requires !SavedSinceSweep(tr, id)
    ensures var u := Play(t, tr, threshold);
            id in u && u[id].status.Online? && u[id].lastHeartbeat.Some? ==>
              end - u[id].lastHeartbeat.value <= threshold + interval
  {
    OnlineSinceSweep(t, tr, threshold, id, end);
  }

  /** The bound is reached. */
  lemma {:induction false} HeartbeatAgeIsReached(id: NodeId, version: string, n: Node, threshold: int, interval: int,
                                                 now: int)
    requires threshold >= 0 && interval >= 0
    ensures var tr := [Beaten(now - threshold, id, version), Swept(now)];
            var u := Play(map[id := n], tr, threshold);
            && InOrder(tr, now + interval) && LastSweep(tr) == Some(now) && !SavedSinceSweep(tr, id)
            && id in u && u[id].status.Online? && u[id].lastHeartbeat == Some(now + interval - (threshold + interval))
  {
    var tr := [Beaten(now - threshold, id, version), Swept(now)];
    assert tr[..1] == [tr[0]] && tr[..1][..0] == [];
    assert Play(map[id := n], [], threshold) == map[id := n];
    assert Play(map[id := n], tr[..1], threshold) == Beat(map[id := n], id, version, now - threshold);
  }

  /** When the node was last heard from, `heard` being its heartbeat at the start. */
  function LastBeat(tr: seq<Event>, id: NodeId, heard: int): int {
    if tr == [] then heard
    else
      var e := tr[|tr| - 1];
      if e.Beaten? && e.id == id then e.now else LastBeat(tr[..|tr| - 1], id, heard)
  }

  /** Since the last heartbeat, a sweep came more than `threshold` after it. */
  predicate FoundLate(tr: seq<Event>, id: NodeId, heard: int, threshold: int) {
    && tr != []
    && var init, e := tr[..|tr| - 1], tr[|tr| - 1];
       && !(e.Beaten? && e.id == id)
       && (FoundLate(init, id, heard, threshold) || (e.Swept? && e.now - LastBeat(init, id, heard) > threshold))
  }

  /** A node that is heard from and left alone otherwise is offline exactly if a sweep has found its last
      heartbeat more than the threshold old; at the threshold itself it is still online. */
  lemma {:induction false} OfflineExactlyIfFoundLate(t: Table, tr: seq<Event>, threshold: int, id: NodeId, heard: int)
    requires id in t && t[id].status.Online? && t[id].lastHeartbeat == Some(heard)
    requires forall i | 0 <= i < |tr| :: tr[i].Beaten? || !Touches(tr[i], id)
    ensures var u := Play(t, tr, threshold);
            && id in u && u[id].lastHeartbeat == Some(LastBeat(tr, id, heard))
            && u[id].status == if FoundLate(tr, id, heard, threshold) then Offline else Online
  {
    if tr != [] {
      OfflineExactlyIfFoundLate(t, tr[..|tr| - 1], threshold, id, heard);
    }
  }

  predicate Touches(e: Event, id: NodeId) {
    !e.Swept? && e.id == id
  }

  /** A node that never sent a heartbeat is never swept: however many sweeps pass, its row
      stays as it was until something is written to it. */
  lemma {:induction false} NeverHeardNeverSwept(t: Table, tr: seq<Event>, threshold: int, id: NodeId)
    requires id in t && t[id].lastHeartbeat.None? && forall i | 0 <= i < |tr| :: !Touches(tr[i], id)
    ensures var u := Play(t, tr, threshold); id in u && u[id] == t[id]
  {
    if tr != [] {
      NeverHeardNeverSwept(t, tr[..|tr| - 1], threshold, id);
    }
  }

  /** Registering again does not count as a heartbeat: a node whose heartbeat is stale at the
      next sweep goes offline with it, unless it was heard from or written in between. */
  lemma {:induction false} RejoiningIsNotAHeartbeat(
      t: Table, id: NodeId, hostname: string, version: string, tr: seq<Event>, sweep: int, threshold: int)
    requires id in t && t[id].lastHeartbeat.Some? && t[id].lastHeartbeat.value < sweep - threshold
    requires forall i | 0 <= i < |tr| :: !Touches(tr[i], id)
    ensures var u := Play(Rejoin(t, id, hostname, version), tr + [Swept(sweep)], threshold);
            id in u && u[id].status.Offline?
  {
    var s := Rejoin(t, id, hostname, version);
    assert (tr + [Swept(sweep)])[..|tr|] == tr;
    StaysUntouched(s, tr, threshold, id);
  }

  lemma {:induction false} StaysUntouched(t: Table, tr: seq<Event>, threshold: int, id: NodeId)
    requires id in t && t[id].status != Draining && forall i | 0 <= i < |tr| :: !Touches(tr[i], id)
    ensures var u := Play(t, tr, threshold);
            id in u && u[id].lastHeartbeat == t[id].lastHeartbeat
              && (u[id].status == t[id].status || u[id].status.Offline?)
  {
    if tr != [] {
      StaysUntouched(t, tr[..|tr| - 1], threshold, id);
    }
  }
}
