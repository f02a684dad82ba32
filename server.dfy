/**
 * The backend's database as one object: the tables the HTTP handlers read
 * and write. The read handlers are the functions of `Ledger`,
 * `Requisitions`, `MindMap` and `Auth` applied to these tables; the methods
 * below are the handlers that change a table (`PATCH .../entregar`, the
 * mind-map inserts, the node update and the two deletes), each one statement
 * against the store.
 */
module Server {
  import opened Options
  import opened Seqs
  import opened Ledger
  import opened Requisitions
  import opened Auth
  import opened MindMap

  class Database {
    var approvals: seq<ApprovalRecord>
    var requisitions: Tables
    var users: seq<UserAccount>
    var nodes: seq<MindNode>
    var connections: seq<Connection>
    /** The next values of the two `SERIAL` id sequences. */
    var nextNodeId: int
    var nextConnectionId: int

    /**
     * The table constraints: primary keys are unique and below their
     * sequence's next value, and both ends of every connection are existing
     * nodes (the foreign keys with `ON DELETE CASCADE`).
     */
    ghost predicate Valid()
      reads this
    {
      && UniqueKeys(nodes, NodeKey)
      && UniqueKeys(connections, ConnectionKey)
      && (forall n :: n in nodes ==> n.id < nextNodeId)
      && (forall c :: c in connections ==> c.id < nextConnectionId)
      && Linked(nodes, connections)
    }

    /** A database with the given ledger, requisitions and accounts and an empty mind map. */
    constructor (approvals: seq<ApprovalRecord>, requisitions: Tables, users: seq<UserAccount>)
      ensures Valid()
      ensures this.approvals == approvals && this.requisitions == requisitions && this.users == users
      ensures nodes == [] && connections == []
    {
      this.approvals := approvals;
      this.requisitions := requisitions;
      this.users := users;
      nodes := [];
      connections := [];
      nextNodeId := 1;
      nextConnectionId := 1;
    }

    /**
     * `PATCH /api/aprobaciones/:id/entregar`: the update `SET estado =
     * 'Entregado', ... WHERE id = $3 RETURNING *`. The reply body is the
     * updated row, or empty when no row has the id; nothing else changes.
     */
    method MarkDelivered(id: int, entregadoPor: Option<string>, observaciones: Option<string>, now: int)
      returns (row: Option<ApprovalRecord>)
      modifies this`approvals
      ensures approvals == DeliverInTable(old(approvals), id, entregadoPor, observaciones, now)
      ensures row.None? <==> forall r :: r in old(approvals) ==> r.id != id
      ensures row.Some? ==> exists i :: (0 <= i < |old(approvals)| && old(approvals)[i].id == id
        && row.value == Delivered(old(approvals)[i], entregadoPor, observaciones, now))
    {
      var before := approvals;
      approvals := DeliverInTable(before, id, entregadoPor, observaciones, now);
      row := Find(approvals, (r: ApprovalRecord) => r.id == id);
      if row.Some? {
        var i :| 0 <= i < |approvals| && approvals[i] == row.value;
        assert before[i].id == id;
      } else {
        forall r | r in before ensures r.id != id {
          var i :| 0 <= i < |before| && before[i] == r;
          assert approvals[i] in approvals;
        }
      }
    }

    /**
     * `POST /api/mindmap/nodes`: inserts a node with the next id, the stored
     * color and both timestamps `now`, and returns it. The parent is stored
     * as given: nothing checks that it exists.
     */
    method CreateNode(parentId: Option<int>, fields: NodeFields, now: int) returns (row: MindNode)
      requires Valid()
      modifies this`nodes, this`nextNodeId
      ensures Valid()
      ensures row == NewNode(old(nextNodeId), parentId, fields, now)
      ensures nodes == old(nodes) + [row]
      ensures nextNodeId == old(nextNodeId) + 1
    {
      row := NewNode(nextNodeId, parentId, fields, now);
      forall n | n in nodes ensures n.id != row.id {
      }
      nodes := nodes + [row];
      nextNodeId := nextNodeId + 1;
      assert NodeIds(old(nodes)) <= NodeIds(nodes);
    }

    /**
     * `POST /api/mindmap/connections`: inserts an edge with the stored type.
     * A source or target that is not a node breaks a foreign key and the
     * insert fails (`None`, the 500 reply) without changing the table.
     */
    method CreateConnection(source: int, target: int, connectionType: Option<string>) returns (row: Option<Connection>)
      requires Valid()
      modifies this`connections, this`nextConnectionId
      ensures Valid()
      ensures row.None? <==> source !in NodeIds(nodes) || target !in NodeIds(nodes)
      ensures row.Some? ==> row.value == Connection(old(nextConnectionId), source, target, StoredType(connectionType))
      ensures connections == if row.Some? then old(connections) + [row.value] else old(connections)
    {
      if source !in NodeIds(nodes) || target !in NodeIds(nodes) {
        row := None;
      } else {
        var c := Connection(nextConnectionId, source, target, StoredType(connectionType));
        connections := connections + [c];
        nextConnectionId := nextConnectionId + 1;
        row := Some(c);
      }
    }

    /**
     * `PUT /api/mindmap/nodes/:id`: replaces the mutable fields of the node
     * and stamps `updated_at`; `None` is the 404 reply, and then nothing
     * changes.
     */
    method UpdateNode(id: int, fields: NodeFields, now: int) returns (row: Option<MindNode>)
      requires Valid()
      modifies this`nodes
      ensures Valid()
      ensures nodes == UpdateInTable(old(nodes), id, fields, now)
      ensures row.None? <==> id !in NodeIds(old(nodes))
      ensures row.None? ==> nodes == old(nodes)
      ensures row.Some? ==> exists i :: (0 <= i < |old(nodes)| && old(nodes)[i].id == id
        && row.value == Updated(old(nodes)[i], fields, now))
    {
      var before := nodes;
      UpdateKeepsNodeIds(before, id, fields, now);
      nodes := UpdateInTable(before, id, fields, now);
      forall n | n in nodes ensures n.id < nextNodeId {
        assert n.id in NodeIds(before);
      }
      row := Find(nodes, (n: MindNode) => n.id == id);
      if row.Some? {
        UpdatedRowsComeFromMatches(before, id, fields, now, row.value);
      } else {
        assert id !in NodeIds(nodes);
        UpdateUnknownIdChangesNothing(before, id, fields, now);
      }
    }

    /**
     * `DELETE /api/mindmap/nodes/:id`: removes the node and, by the cascade,
     * every connection with it as source or target, in one step.
     */
    method DeleteNode(id: int)
      requires Valid()
      modifies this`nodes, this`connections
      ensures Valid()
      ensures nodes == RemoveNode(old(nodes), id)
      ensures connections == CascadeDelete(old(connections), id)
    {
      DeleteNodeKeepsLinks(nodes, connections, id);
      SubsequenceKeepsUniqueKeys(RemoveNode(nodes, id), nodes, NodeKey);
      SubsequenceKeepsUniqueKeys(CascadeDelete(connections, id), connections, ConnectionKey);
      nodes := RemoveNode(nodes, id);
      connections := CascadeDelete(connections, id);
    }

    /** `DELETE /api/mindmap/connections/:id`: removes that edge only. */
    method DeleteConnection(id: int)
      requires Valid()
      modifies this`connections
      ensures Valid()
      ensures connections == RemoveConnection(old(connections), id)
      ensures |connections| == if exists c :: c in old(connections) && c.id == id then |old(connections)| - 1 else |old(connections)|
    {
      DeleteConnectionRemovesOne(connections, id);
      SubsequenceKeepsUniqueKeys(RemoveConnection(connections, id), connections, ConnectionKey);
      connections := RemoveConnection(connections, id);
    }
  }
}
