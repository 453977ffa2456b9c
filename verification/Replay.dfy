// packages/core/src/replay/replay.ts: un-claim an order and publish it again.
module ReplayRequests {
  import opened Common
  import opened DedupKey
  import opened XrefStore
  import opened OrderImportFlow

  datatype ReplayOutcome =
    | Replayed(previousStatus: Option<Status>)
    | RefusedAlreadySynced(targetId: Option<InternalId>)
    | UnknownConnection

  class ReplayDesk {
    const connections: set<string>
    var table: Table
    var queue: seq<Message>

    constructor (connections: set<string>, table: Table)
      ensures this.connections == connections && this.table == table && queue == []
    {
      this.connections, this.table := connections, table;
      queue := [];
    }

    // requestReplay with nothing running between its three steps. What it publishes passes the
    // update_before_create gate and will be the holder of a new claim.
    method RequestReplay(p: Parts, force: bool, topic: Topic) returns (r: ReplayOutcome)
      modifies this
      ensures r.UnknownConnection? <==> p.connectionId !in connections
      ensures r.RefusedAlreadySynced? <==>
                && p.connectionId in connections && !force
                && p in old(table) && old(table)[p].status == Synced
      ensures r.RefusedAlreadySynced? ==> r.targetId == old(table)[p].targetId
      ensures !r.Replayed? ==> table == old(table) && queue == old(queue)
      ensures r.Replayed? ==>
                && r.previousStatus == (if p in old(table) then Some(old(table)[p].status) else None)
                && table == old(table) - {p}
                && queue == old(queue) + [Message(p, topic, Replay)]
                && AfterGate(queue[|queue| - 1]) == ClaimInsert
                && ClaimAnswer(table, ClaimOf(queue[|queue| - 1])).outcome == Claimed
    {
      if p.connectionId !in connections {
        return UnknownConnection;
      }
      var existing := Find(table, p);
      if existing.Some? && existing.value.status == Synced && !force {
        return RefusedAlreadySynced(existing.value.targetId);
      }
      if existing.Some? {
        table := table - {p};
      }
      queue := queue + [Message(p, topic, Replay)];
      return Replayed(if existing.Some? then Some(existing.value.status) else None);
    }
  }
}
