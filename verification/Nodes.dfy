/** The control plane's node table: registration, heartbeats, the stale sweep and address
    updates, one request at a time. */
module Nodes {
  import opened Common

  type NodeId = string

  datatype Status = Online | Offline | Draining

  /** `agentVersion` is never NULL: an absent version is stored as the empty string. */
  datatype Node = Node(name: string, address: string, status: Status, lastHeartbeat: Option<int>, agentVersion: string)

  type Table = map<NodeId, Node>

  // ---------------------------------------------------------------- what each statement does

  function Beat(t: Table, id: NodeId, version: string, now: int): Table {
    if id in t then t[id := t[id].(status := Online, lastHeartbeat := Some(now), agentVersion := version)] else t
  }

  predicate IsStale(n: Node, cutoff: int) {
    n.status.Online? && n.lastHeartbeat.Some? && n.lastHeartbeat.value < cutoff
  }

  /** The sweep; a NULL heartbeat compares as unknown and is left alone. */
  function Sweep(t: Table, cutoff: int): Table {
    map id | id in t :: if IsStale(t[id], cutoff) then t[id].(status := Offline) else t[id]
  }

  function Rejoin(t: Table, id: NodeId, hostname: string, version: string): Table
    requires id in t
  {
    t[id := t[id].(agentVersion := version, status := Online, name := if hostname != "" then hostname else t[id].name)]
  }

  class NodeRepository {
    var rows: Table
    /** How many calls of remote clients for these rows have gone wrong. */
    ghost var faults: nat

    constructor ()
      ensures rows == map[] && faults == 0
    {
      rows, faults := map[], 0;
    }

    /** Some row with the address, if there is one and the query works. */
    method FindByAddress(address: string, readable: bool) returns (id: Option<NodeId>)
      ensures id.None? <==> !readable || forall k | k in rows :: rows[k].address != address
      ensures id.Some? ==> id.value in rows && rows[id.value].address == address
    {
      if !readable {
        return None;
      }
      var left := rows.Keys;
      while left != {}
        invariant left <= rows.Keys
        invariant forall k | k in rows && k !in left :: rows[k].address != address
      {
        var k :| k in left;
        if rows[k].address == address {
          return Some(k);
        }
        left := left - {k};
      }
      id := None;
    }

    /** Writes a whole row, if the write works. */
    method Update(id: NodeId, node: Node, works: bool)
      modifies this`rows
      ensures rows == if works then old(rows)[id := node] else old(rows)
    {
      if works {
        rows := rows[id := node];
      }
    }

    method UpdateHeartbeat(id: NodeId, version: string, now: int, works: bool)
      modifies this`rows
      ensures rows == if works then Beat(old(rows), id, version, now) else old(rows)
      ensures works && id in old(rows) ==>
                rows == old(rows)[id := Node(old(rows)[id].name, old(rows)[id].address, Online, Some(now), version)]
    {
      if works && id in rows {
        rows := rows[id := rows[id].(status := Online, lastHeartbeat := Some(now), agentVersion := version)];
      }
    }

    method MarkStaleOffline(threshold: int, now: int, works: bool)
      modifies this`rows
      ensures rows == if works then Sweep(old(rows), now - threshold) else old(rows)
      ensures works ==>
                forall id | id in old(rows) ::
                  var n := old(rows)[id];
                  id in rows && rows[id] == if n.status.Online? && n.lastHeartbeat.Some?
                                               && now - n.lastHeartbeat.value > threshold
                                            then n.(status := Offline) else n
    {
      if works {
        var cutoff := now - threshold;
        rows := map id | id in rows ::
          if rows[id].status.Online? && rows[id].lastHeartbeat.Some? && rows[id].lastHeartbeat.value < cutoff
          then rows[id].(status := Offline) else rows[id];
      }
    }
  }

  // ---------------------------------------------------------------- the services over it

  datatype UpdateError = AddressRequired | NodeNotFound | WriteFailed

  class NodeService {
    const repo: NodeRepository

    constructor (repo: NodeRepository)
      ensures this.repo == repo
    {
      this.repo := repo;
    }

    /** Repoints a node; only its address changes, and only if the call succeeds. */
    method UpdateAddress(id: NodeId, address: string, readable: bool, works: bool) returns (err: Option<UpdateError>)
      modifies repo`rows
      ensures err == (if address == "" then Some(AddressRequired)
                      else if id !in old(repo.rows) || !readable then Some(NodeNotFound)
                      else if old(repo.rows)[id].address != address && !works then Some(WriteFailed)
                      else None)
      ensures repo.rows
           == if err.None? then old(repo.rows)[id := old(repo.rows)[id].(address := address)] else old(repo.rows)
    {
      if address == "" {
        return Some(AddressRequired);
      }
      if id !in repo.rows || !readable {
        return Some(NodeNotFound);
      }
      var node := repo.rows[id];
      if node.address == address {
        assert node.(address := address) == node;
        return None;
      }
      repo.Update(id, node.(address := address), works);
      err := if works then None else Some(WriteFailed);
    }
  }

  class AgentServer {
    const nodeRepo: NodeRepository

    constructor (repo: NodeRepository)
      ensures nodeRepo == repo
    {
      nodeRepo := repo;
    }

    /** Reuses the row of a known address, even if saving it fails; if none is found, or the
        lookup fails, creates one under an unused id. */
    method RegisterNode(address: string, hostname: string, version: string, newId: NodeId, readable: bool, works: bool)
      returns (id: Option<NodeId>)
      requires newId !in nodeRepo.rows
      modifies nodeRepo`rows
      ensures var t := old(nodeRepo.rows);
              if readable && exists k :: k in t && t[k].address == address then
                && id.Some? && id.value in t && t[id.value].address == address
                && nodeRepo.rows == (if works then Rejoin(t, id.value, hostname, version) else t)
                && (works ==>
                      var n, m := t[id.value], nodeRepo.rows[id.value];
                      && m.name == (if hostname != "" then hostname else n.name) && m.address == address
                      && m.status == Online && m.lastHeartbeat == n.lastHeartbeat && m.agentVersion == version)
              else
                && id == (if works then Some(newId) else None)
                && nodeRepo.rows == if works then t[newId := Node(hostname, address, Online, None, version)] else t
    {
      var existing := nodeRepo.FindByAddress(address, readable);
      if existing.Some? {
        var node := nodeRepo.rows[existing.value].(agentVersion := version, status := Online);
        if hostname != "" {
          node := node.(name := hostname);
        }
        nodeRepo.Update(existing.value, node, works);
        return existing;
      }
      nodeRepo.Update(newId, Node(hostname, address, Online, None, version), works);
      id := if works then Some(newId) else None;
    }
  }
}
