/**
 * The support mind map (`MindMap` component): the client's mirror of the
 * node and connection tables, dragging a node, adding a node (as a child of
 * the selected one when there is one), deleting a node with its edges, and
 * which connections are drawn.
 */
module Soporte {
  import opened Options
  import opened Seqs
  import opened Text
  import opened MindMap
  import opened Server

  /** The new-node form (`newNode`). */
  datatype NewNodeForm = NewNodeForm(title: string, description: string, problem: bool, solution: bool, color: string)

  const EmptyForm := NewNodeForm("", "", false, false, DefaultColor)
  const AddNodeError := "Error al agregar nodo"

  /** The horizontal and vertical offset of a child from its parent. */
  const ChildOffsetX := 200
  const ChildOffsetY := 100

  /** `handleNodeDrag`'s local update: the node with the id moves to `(x, y)`. */
  function MoveNode(nodes: seq<MindNode>, id: int, x: int, y: int): (r: seq<MindNode>)
    ensures NodeKeys(r) == NodeKeys(nodes)
    ensures forall i :: 0 <= i < |nodes| && nodes[i].id == id ==> r[i].positionX == x && r[i].positionY == y
    ensures forall i :: 0 <= i < |nodes| ==>
      r[i].(positionX := nodes[i].positionX, positionY := nodes[i].positionY) == nodes[i]
    ensures forall i :: 0 <= i < |nodes| && nodes[i].id != id ==> r[i] == nodes[i]
  {
    seq(|nodes|, i requires 0 <= i < |nodes| =>
      if nodes[i].id == id then nodes[i].(positionX := x, positionY := y) else nodes[i])
  }

  /** The body of the PUT a drag sends: the mirrored node with the new position. */
  function DragFields(n: MindNode, x: int, y: int): NodeFields {
    NodeFields(n.title, n.description, n.problem, n.solution, x, y, Some(n.color))
  }

  /**
   * Persisting a drag changes only the position and the update stamp of the
   * stored node, for a node whose color the server stored (never empty).
   */
  lemma DragPersistsOnlyPosition(n: MindNode, x: int, y: int, now: int)
    requires n.color != ""
    ensures Updated(n, DragFields(n, x, y), now) == n.(positionX := x, positionY := y, updatedAt := now)
  {
  }

  /** A selected node id is a parent when it is truthy: present and not 0. */
  predicate IsTruthyParent(selected: Option<int>) {
    selected.Some? && selected.value != 0
  }

  /** `nodes.find(n => n.id === parentId)?.position_x || 0`, and the same for y. */
  function ParentPosition(nodes: seq<MindNode>, parentId: int): (int, int) {
    match Find(nodes, (n: MindNode) => n.id == parentId)
    case Some(n) => (n.positionX, n.positionY)
    case None => (0, 0)
  }

  /** Where a new node goes: below and right of a truthy parent, else at the given center. */
  function Placement(nodes: seq<MindNode>, selected: Option<int>, center: (int, int)): (int, int) {
    if IsTruthyParent(selected) then
      var p := ParentPosition(nodes, selected.value);
      (p.0 + ChildOffsetX, p.1 + ChildOffsetY)
    else center
  }

  /** A child lands at its parent's position plus (200, 100). */
  lemma ChildIsPlacedOffsetFromParent(nodes: seq<MindNode>, parent: MindNode, center: (int, int))
    requires UniqueKeys(nodes, NodeKey) && parent in nodes && parent.id != 0
    ensures Placement(nodes, Some(parent.id), center) == (parent.positionX + ChildOffsetX, parent.positionY + ChildOffsetY)
  {
    var found := Find(nodes, (n: MindNode) => n.id == parent.id).value;
    var i :| 0 <= i < |nodes| && nodes[i] == found;
    var j :| 0 <= j < |nodes| && nodes[j] == parent;
    assert NodeKey(nodes[i]) == NodeKey(nodes[j]);
  }

  /** A parent missing from the mirror counts as standing at (0, 0). */
  lemma MissingParentCountsAsOrigin(nodes: seq<MindNode>, parentId: int, center: (int, int))
    requires parentId != 0 && parentId !in NodeIds(nodes)
    ensures Placement(nodes, Some(parentId), center) == (ChildOffsetX, ChildOffsetY)
  {
  }

  /** A selected id of 0 is falsy: the node is placed like a root. */
  lemma ZeroParentIsPlacedAsRoot(nodes: seq<MindNode>, center: (int, int))
    ensures Placement(nodes, Some(0), center) == center
  {
  }

  /** The body of the node POST: the form and the position. */
  function NodeRequest(form: NewNodeForm, x: int, y: int): NodeFields {
    NodeFields(form.title, form.description, form.problem, form.solution, x, y, Some(form.color))
  }

  predicate HasNode(nodes: seq<MindNode>, id: int) {
    exists n :: n in nodes && n.id == id
  }

  /** A connection as drawn: the line is dashed unless it is a parent-to-child edge. */
  datatype DrawnEdge = DrawnEdge(connection: Connection, dashed: bool)

  function Drawn(c: Connection): DrawnEdge {
    DrawnEdge(c, c.connectionType != ChildType)
  }

  /** The connections drawn: those whose two ends are both among the nodes, in order. */
  function DrawnEdges(nodes: seq<MindNode>, connections: seq<Connection>): (edges: seq<DrawnEdge>)
    ensures |edges| <= |connections|
    ensures forall e :: e in edges ==> (&& e.connection in connections
                                        && HasNode(nodes, e.connection.sourceNodeId)
                                        && HasNode(nodes, e.connection.targetNodeId)
                                        && e == Drawn(e.connection))
    ensures forall c :: c in connections && HasNode(nodes, c.sourceNodeId) && HasNode(nodes, c.targetNodeId)
                        ==> Drawn(c) in edges
  {
    if connections == [] then []
    else
      var c := connections[0];
      var rest := DrawnEdges(nodes, connections[1..]);
      assert forall d :: d in connections ==> d == c || d in connections[1..];
      if HasNode(nodes, c.sourceNodeId) && HasNode(nodes, c.targetNodeId) then [Drawn(c)] + rest else rest
  }

  /** When every connection joins existing nodes, every connection is drawn. */
  lemma {:induction false} LinkedEdgesAreAllDrawn(nodes: seq<MindNode>, connections: seq<Connection>)
    requires Linked(nodes, connections)
    ensures |DrawnEdges(nodes, connections)| == |connections|
  {
    if connections != [] {
      var c := connections[0];
      assert c in connections;
      assert c.sourceNodeId in NodeIds(nodes) && c.targetNodeId in NodeIds(nodes);
      assert HasNode(nodes, c.sourceNodeId) && HasNode(nodes, c.targetNodeId);
      LinkedEdgesAreAllDrawn(nodes, connections[1..]);
    }
  }

  /** After deleting a node in the mirror, no drawn edge touches it. */
  lemma NoDrawnEdgeTouchesDeletedNode(nodes: seq<MindNode>, connections: seq<Connection>, id: int)
    ensures forall e :: e in DrawnEdges(RemoveNode(nodes, id), CascadeDelete(connections, id)) ==> !Touches(e.connection, id)
  {
  }

  /** The component's state. */
  class MindMapView {
    var nodes: seq<MindNode>
    var connections: seq<Connection>
    var selectedNode: Option<int>
    var error: Option<string>
    var newNode: NewNodeForm

    /** The view once `fetchData` has loaded both lists. */
    constructor (nodes: seq<MindNode>, connections: seq<Connection>)
      ensures this.nodes == nodes && this.connections == connections
      ensures selectedNode.None? && error.None? && newNode == EmptyForm
    {
      this.nodes := nodes;
      this.connections := connections;
      selectedNode := None;
      error := None;
      newNode := EmptyForm;
    }

    /** Clicking a node selects it. */
    method SelectNode(id: int)
      modifies this`selectedNode
      ensures selectedNode == Some(id)
    {
      selectedNode := Some(id);
    }

    method EditForm(form: NewNodeForm)
      modifies this`newNode
      ensures newNode == form
    {
      newNode := form;
    }

    /**
     * `handleNodeDrag(id, [x, y])`: sends the PUT with the mirrored node at
     * its new position (returned as the request) and moves the node locally.
     */
    method HandleNodeDrag(db: Database, id: int, x: int, y: int, now: int) returns (request: Option<NodeFields>)
      requires db.Valid()
      modifies this`nodes, db`nodes
      ensures db.Valid()
      ensures nodes == MoveNode(old(nodes), id, x, y)
      ensures match Find(old(nodes), (n: MindNode) => n.id == id)
        case Some(n) => request == Some(DragFields(n, x, y))
                        && db.nodes == UpdateInTable(old(db.nodes), id, DragFields(n, x, y), now)
        case None => request.None? && db.nodes == old(db.nodes)
    {
      var mirrored := Find(nodes, (n: MindNode) => n.id == id);
      request := None;
      if mirrored.Some? {
        request := Some(DragFields(mirrored.value, x, y));
        var _ := db.UpdateNode(id, request.value, now);
      }
      nodes := MoveNode(nodes, id, x, y);
    }

    /**
     * `handleAddNode`, with `center` standing for half the window size. A
     * blank title changes nothing. Otherwise the node is created and mirrored;
     * under a truthy parent the `child` edge is created too, and when that
     * fails the error is set and the form is kept. The form is emptied after
     * a complete add.
     */
    method HandleAddNode(db: Database, center: (int, int), now: int)
      requires db.Valid()
      modifies this`nodes, this`connections, this`newNode, this`error
      modifies db`nodes, db`nextNodeId, db`connections, db`nextConnectionId
      ensures db.Valid()
      ensures IsBlank(old(newNode.title)) ==>
        && nodes == old(nodes) && connections == old(connections) && newNode == old(newNode) && error == old(error)
        && db.nodes == old(db.nodes) && db.connections == old(db.connections)
      ensures !IsBlank(old(newNode.title)) ==>
        var p := Placement(old(nodes), selectedNode, center);
        var created := NewNode(old(db.nextNodeId), selectedNode, NodeRequest(old(newNode), p.0, p.1), now);
        && db.nodes == old(db.nodes) + [created]
        && nodes == old(nodes) + [created]
      ensures !IsBlank(old(newNode.title)) && !IsTruthyParent(selectedNode) ==>
        && connections == old(connections) && db.connections == old(db.connections)
        && newNode == EmptyForm && error == old(error)
      ensures !IsBlank(old(newNode.title)) && IsTruthyParent(selectedNode) && selectedNode.value in NodeIds(db.nodes) ==>
        var edge := Connection(old(db.nextConnectionId), selectedNode.value, old(db.nextNodeId), ChildType);
        && connections == old(connections) + [edge] && db.connections == old(db.connections) + [edge]
        && newNode == EmptyForm && error == old(error)
      ensures !IsBlank(old(newNode.title)) && IsTruthyParent(selectedNode) && selectedNode.value !in NodeIds(db.nodes) ==>
        && connections == old(connections) && db.connections == old(db.connections)
        && newNode == old(newNode) && error == Some(AddNodeError)
    {
      if !IsBlank(newNode.title) {
        var parentId := selectedNode;
        var p := Placement(nodes, parentId, center);
        var created := db.CreateNode(parentId, NodeRequest(newNode, p.0, p.1), now);
        nodes := nodes + [created];
        var complete := true;
        if IsTruthyParent(parentId) {
          complete := AddChildEdge(db, parentId.value, created.id);
        }
        if complete {
          newNode := EmptyForm;
        }
      }
    }

    /**
     * The second request of `handleAddNode`: the `child` edge from the parent
     * to the new node; `false` when the server refuses it.
     */
    method AddChildEdge(db: Database, parent: int, child: int) returns (ok: bool)
      requires db.Valid()
      modifies this`connections, this`error, db`connections, db`nextConnectionId
      ensures db.Valid()
      ensures ok <==> parent in NodeIds(db.nodes) && child in NodeIds(db.nodes)
      ensures ok ==>
        var edge := Connection(old(db.nextConnectionId), parent, child, ChildType);
        connections == old(connections) + [edge] && db.connections == old(db.connections) + [edge] && error == old(error)
      ensures !ok ==> connections == old(connections) && db.connections == old(db.connections) && error == Some(AddNodeError)
    {
      var edge := db.CreateConnection(parent, child, Some(ChildType));
      ok := edge.Some?;
      if ok {
        connections := connections + [edge.value];
      } else {
        error := Some(AddNodeError);
      }
    }

    /**
     * `handleDeleteNode(id)`: deletes the node on the server (which cascades)
     * and drops the node and every edge touching it from the mirror, keeping
     * the rest in order.
     */
    method HandleDeleteNode(db: Database, id: int)
      requires db.Valid()
      modifies this`nodes, this`connections, db`nodes, db`connections
      ensures db.Valid()
      ensures db.nodes == RemoveNode(old(db.nodes), id) && db.connections == CascadeDelete(old(db.connections), id)
      ensures nodes == RemoveNode(old(nodes), id) && connections == CascadeDelete(old(connections), id)
    {
      db.DeleteNode(id);
      nodes := RemoveNode(nodes, id);
      connections := CascadeDelete(connections, id);
    }
  }
}
