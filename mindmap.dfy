/**
 * The mind-map graph: nodes (`mindmap_nodes`) and the directed, typed
 * connections between them (`mindmap_connections`). This module holds the
 * rows, the defaults the server applies on insert and update, and the table
 * transformations of the update and delete statements, with the referential
 * integrity the connection foreign keys keep.
 */
module MindMap {
  import opened Options
  import opened Seqs
  import opened Sorting

  /** A node row. Positions are integers; timestamps are seconds. */
  datatype MindNode = MindNode(
    id: int,
    parentId: Option<int>,
    title: string,
    description: string,
    problem: bool,
    solution: bool,
    positionX: int,
    positionY: int,
    color: string,
    createdAt: int,
    updatedAt: int)

  /** A connection row; both ends reference node ids. */
  datatype Connection = Connection(id: int, sourceNodeId: int, targetNodeId: int, connectionType: string)

  const DefaultColor := "#1E3A8A"
  const RelatedType := "related"
  const ChildType := "child"

  /**
   * The mutable fields the client sends when creating or replacing a node.
   * `color` is `None` when the body has none.
   */
  datatype NodeFields = NodeFields(
    title: string,
    description: string,
    problem: bool,
    solution: bool,
    positionX: int,
    positionY: int,
    color: Option<string>)

  /** JavaScript `v || d` on an optional string: absent and empty values are falsy. */
  function OrDefault(v: Option<string>, d: string): (r: string)
    ensures r == d || (v.Some? && r == v.value)
    ensures v.Some? && v.value != "" ==> r == v.value
    ensures r == "" ==> d == ""
  {
    if v.Some? && v.value != "" then v.value else d
  }

  /** The color stored for a requested one: `color || '#1E3A8A'`. */
  function StoredColor(color: Option<string>): (c: string)
    ensures c != ""
    ensures color.None? || color.value == "" ==> c == DefaultColor
  {
    OrDefault(color, DefaultColor)
  }

  /** The connection type stored for a requested one: `connection_type || 'related'`. */
  function StoredType(connectionType: Option<string>): (t: string)
    ensures t != ""
    ensures connectionType.None? || connectionType.value == "" ==> t == RelatedType
  {
    OrDefault(connectionType, RelatedType)
  }

  /**
   * The row `INSERT INTO mindmap_nodes ... RETURNING *` creates with a
   * generated id: the parent and the six fields of the request, the stored
   * color, and `now` for `created_at` and `updated_at`, which the INSERT
   * leaves to the table's defaults.
   */
  function NewNode(id: int, parentId: Option<int>, f: NodeFields, now: int): (n: MindNode)
    ensures n.id == id && n.parentId == parentId && n.createdAt == now && n.updatedAt == now
    ensures n.color == StoredColor(f.color)
    ensures n.title == f.title && n.description == f.description && n.problem == f.problem && n.solution == f.solution
    ensures n.positionX == f.positionX && n.positionY == f.positionY
  {
    MindNode(id, parentId, f.title, f.description, f.problem, f.solution, f.positionX, f.positionY,
      StoredColor(f.color), now, now)
  }

  /**
   * A node after `UPDATE mindmap_nodes SET title = ..., color = ...,
   * updated_at = CURRENT_TIMESTAMP`: the mutable fields are replaced, the id,
   * the parent and the creation time are kept.
   */
  function Updated(n: MindNode, f: NodeFields, now: int): MindNode {
    n.(title := f.title, description := f.description, problem := f.problem, solution := f.solution,
       positionX := f.positionX, positionY := f.positionY, color := StoredColor(f.color), updatedAt := now)
  }

  /** The node table after the update `WHERE id = $8`. */
  function UpdateInTable(nodes: seq<MindNode>, id: int, f: NodeFields, now: int): (t: seq<MindNode>)
    ensures |t| == |nodes|
  {
    seq(|nodes|, i requires 0 <= i < |nodes| => if nodes[i].id == id then Updated(nodes[i], f, now) else nodes[i])
  }

  function NodeIds(nodes: seq<MindNode>): set<int> {
    set n | n in nodes :: n.id
  }

  function NodeKey(n: MindNode): int {
    n.id
  }

  function NodeKeys(nodes: seq<MindNode>): seq<int> {
    seq(|nodes|, i requires 0 <= i < |nodes| => nodes[i].id)
  }

  /** The update replaces the matching row's fields, keeps its id, parent and creation time, and no other row. */
  lemma UpdateReplacesOnlyThatNode(nodes: seq<MindNode>, id: int, f: NodeFields, now: int)
    ensures var t := UpdateInTable(nodes, id, f, now);
      && NodeKeys(t) == NodeKeys(nodes)
      && (forall i :: 0 <= i < |nodes| && nodes[i].id != id ==> t[i] == nodes[i])
      && (forall i :: 0 <= i < |nodes| && nodes[i].id == id ==>
            && t[i].title == f.title && t[i].description == f.description
            && t[i].problem == f.problem && t[i].solution == f.solution
            && t[i].positionX == f.positionX && t[i].positionY == f.positionY
            && t[i].color == StoredColor(f.color) && t[i].updatedAt == now
            && t[i].parentId == nodes[i].parentId && t[i].createdAt == nodes[i].createdAt)
  {
  }

  /** The update keeps the set of node ids and their uniqueness. */
  lemma UpdateKeepsNodeIds(nodes: seq<MindNode>, id: int, f: NodeFields, now: int)
    ensures NodeIds(UpdateInTable(nodes, id, f, now)) == NodeIds(nodes)
    ensures UniqueKeys(nodes, NodeKey) ==> UniqueKeys(UpdateInTable(nodes, id, f, now), NodeKey)
  {
    var t := UpdateInTable(nodes, id, f, now);
    forall k ensures k in NodeIds(t) <==> k in NodeIds(nodes) {
      if k in NodeIds(t) {
        var n :| n in t && n.id == k;
        var i :| 0 <= i < |t| && t[i] == n;
        assert nodes[i] in nodes;
      }
      if k in NodeIds(nodes) {
        var n :| n in nodes && n.id == k;
        var i :| 0 <= i < |nodes| && nodes[i] == n;
        assert t[i] in t;
      }
    }
  }

  /** Every row of the updated table with the id is the update of an old row with that id. */
  lemma UpdatedRowsComeFromMatches(nodes: seq<MindNode>, id: int, f: NodeFields, now: int, x: MindNode)
    requires x in UpdateInTable(nodes, id, f, now) && x.id == id
    ensures exists i :: 0 <= i < |nodes| && nodes[i].id == id && x == Updated(nodes[i], f, now)
  {
    var t := UpdateInTable(nodes, id, f, now);
    var i :| 0 <= i < |t| && t[i] == x;
    assert nodes[i].id == id;
  }

  /** An id that no node has (the 404 case) leaves the table as it was. */
  lemma UpdateUnknownIdChangesNothing(nodes: seq<MindNode>, id: int, f: NodeFields, now: int)
    requires id !in NodeIds(nodes)
    ensures UpdateInTable(nodes, id, f, now) == nodes
  {
    forall i | 0 <= i < |nodes| ensures nodes[i].id != id {
      assert nodes[i] in nodes;
    }
  }

  predicate Touches(c: Connection, id: int) {
    c.sourceNodeId == id || c.targetNodeId == id
  }

  /** `ON DELETE CASCADE`: the connections left once node `id` is deleted. */
  function CascadeDelete(connections: seq<Connection>, id: int): (r: seq<Connection>)
    ensures forall c :: c in r ==> c in connections && !Touches(c, id)
    ensures forall c :: c in connections && !Touches(c, id) ==> c in r
    ensures Subsequence(r, connections)
    ensures forall c :: multiset(r)[c] == if Touches(c, id) then 0 else multiset(connections)[c]
  {
    FilterIsSubsequence(connections, c => !Touches(c, id));
    FilterCounts(connections, c => !Touches(c, id));
    Filter(connections, c => !Touches(c, id))
  }

  /** `DELETE FROM mindmap_nodes WHERE id = $1`. */
  function RemoveNode(nodes: seq<MindNode>, id: int): (r: seq<MindNode>)
    ensures forall n :: n in r ==> n in nodes && n.id != id
    ensures forall n :: n in nodes && n.id != id ==> n in r
    ensures Subsequence(r, nodes)
    ensures forall n :: multiset(r)[n] == if n.id == id then 0 else multiset(nodes)[n]
  {
    FilterIsSubsequence(nodes, (n: MindNode) => n.id != id);
    FilterCounts(nodes, (n: MindNode) => n.id != id);
    Filter(nodes, (n: MindNode) => n.id != id)
  }

  /** `DELETE FROM mindmap_connections WHERE id = $1`. */
  function RemoveConnection(connections: seq<Connection>, id: int): (r: seq<Connection>)
    ensures forall c :: c in r ==> c in connections && c.id != id
    ensures forall c :: c in connections && c.id != id ==> c in r
    ensures Subsequence(r, connections)
    ensures forall c :: multiset(r)[c] == if c.id == id then 0 else multiset(connections)[c]
  {
    FilterIsSubsequence(connections, (c: Connection) => c.id != id);
    FilterCounts(connections, (c: Connection) => c.id != id);
    Filter(connections, (c: Connection) => c.id != id)
  }

  /** The foreign keys: every connection joins two existing nodes. */
  ghost predicate Linked(nodes: seq<MindNode>, connections: seq<Connection>) {
    forall c :: c in connections ==> c.sourceNodeId in NodeIds(nodes) && c.targetNodeId in NodeIds(nodes)
  }

  /** Deleting a node with its cascade keeps every connection joined to existing nodes. */
  lemma DeleteNodeKeepsLinks(nodes: seq<MindNode>, connections: seq<Connection>, id: int)
    requires Linked(nodes, connections)
    ensures Linked(RemoveNode(nodes, id), CascadeDelete(connections, id))
    ensures forall c :: c in CascadeDelete(connections, id) ==> !Touches(c, id)
  {
    var ns := RemoveNode(nodes, id);
    forall c | c in CascadeDelete(connections, id)
      ensures c.sourceNodeId in NodeIds(ns) && c.targetNodeId in NodeIds(ns)
    {
      var s :| s in nodes && s.id == c.sourceNodeId;
      var t :| t in nodes && t.id == c.targetNodeId;
      assert s in ns && t in ns;
    }
  }

  /** Deleting a connection keeps the others joined to existing nodes. */
  lemma DeleteConnectionKeepsLinks(nodes: seq<MindNode>, connections: seq<Connection>, id: int)
    requires Linked(nodes, connections)
    ensures Linked(nodes, RemoveConnection(connections, id))
  {
  }

  /** With unique connection ids, deleting one removes exactly that edge when it exists. */
  lemma DeleteConnectionRemovesOne(connections: seq<Connection>, id: int)
    requires UniqueKeys(connections, ConnectionKey)
    ensures |RemoveConnection(connections, id)| ==
      if exists c :: c in connections && c.id == id then |connections| - 1 else |connections|
  {
    FilterOutUniqueKey(connections, ConnectionKey, id, (c: Connection) => c.id != id);
  }

  function ConnectionKey(c: Connection): int {
    c.id
  }

  function CreatedAt(n: MindNode): int {
    n.createdAt
  }

  /** `GET /api/mindmap/nodes`: every node, newest first. */
  function ListNodes(nodes: seq<MindNode>): (view: seq<MindNode>)
    ensures multiset(view) == multiset(nodes)
    ensures SortedDesc(view, CreatedAt)
  {
    SortDesc(nodes, CreatedAt)
  }

  /** A reply of the connections endpoint: its status and its array body. */
  datatype ConnectionsReply = ConnectionsReply(status: int, body: seq<Connection>)

  /**
   * `GET /api/mindmap/connections`: the table with 200, or, when the query
   * fails (`None`), status 500 with an empty array, never a missing body.
   */
  function ListConnections(result: Option<seq<Connection>>): (reply: ConnectionsReply)
    ensures result.Some? ==> reply == ConnectionsReply(200, result.value)
    ensures result.None? ==> reply == ConnectionsReply(500, [])
  {
    match result
    case Some(rows) => ConnectionsReply(200, rows)
    case None => ConnectionsReply(500, [])
  }
}
