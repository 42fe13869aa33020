/** The collision list of main.js: the wall meshes found while traversing the
    scene at start-up, then every mesh of the loaded environment. The scene
    graph's traversal order is given as a sequence of nodes. */
module Colliders {
  import opened SceneGraph

  /** What `traverse` visits: whether the node is a mesh, its name, and the
      node itself. */
  datatype SceneNode = SceneNode(isMesh: bool, name: string, obj: object)

  /** `String.prototype.startsWith`. */
  predicate StartsWith(s: string, prefix: string) {
    |prefix| <= |s| && s[..|prefix|] == prefix
  }

  /** The test a traversal callback applies: a mesh, and when only walls are
      wanted, one whose name starts with "wall". */
  predicate Picked(n: SceneNode, wallsOnly: bool) {
    n.isMesh && (!wallsOnly || StartsWith(n.name, "wall"))
  }

  /** The nodes a traversal pushes, in visiting order. */
  function Colliders(nodes: seq<SceneNode>, wallsOnly: bool): (r: seq<object>)
    ensures |r| <= |nodes|
  {
    if |nodes| == 0 then []
    else
      var last := nodes[|nodes| - 1];
      Colliders(nodes[..|nodes| - 1], wallsOnly) + (if Picked(last, wallsOnly) then [last.obj] else [])
  }

  /** An object is collected exactly when some visited node holding it
      passes the test. */
  lemma {:induction false} CollidersExactly(nodes: seq<SceneNode>, wallsOnly: bool, o: object)
    ensures o in Colliders(nodes, wallsOnly) <==>
      exists k :: 0 <= k < |nodes| && Picked(nodes[k], wallsOnly) && nodes[k].obj == o
  {
    if |nodes| > 0 {
      var n := |nodes| - 1;
      var init := nodes[..n];
      CollidersExactly(init, wallsOnly, o);
      if o in Colliders(nodes, wallsOnly) {
        if o in Colliders(init, wallsOnly) {
          var k :| 0 <= k < n && Picked(init[k], wallsOnly) && init[k].obj == o;
          assert nodes[k] == init[k];
        } else {
          assert Picked(nodes[n], wallsOnly) && nodes[n].obj == o;
        }
      }
      if exists k :: 0 <= k < |nodes| && Picked(nodes[k], wallsOnly) && nodes[k].obj == o {
        var k :| 0 <= k < |nodes| && Picked(nodes[k], wallsOnly) && nodes[k].obj == o;
        if k < n {
          assert init[k] == nodes[k];
        }
      }
    }
  }

  /** Traversing two parts one after the other collects the two parts'
      lists, one after the other. */
  lemma {:induction false} CollidersAppend(a: seq<SceneNode>, b: seq<SceneNode>, wallsOnly: bool)
    ensures Colliders(a + b, wallsOnly) == Colliders(a, wallsOnly) + Colliders(b, wallsOnly)
    decreases |b|
  {
    if |b| == 0 {
      assert a + b == a;
    } else {
      var n := |b| - 1;
      assert (a + b)[..|a + b| - 1] == a + b[..n];
      assert (a + b)[|a + b| - 1] == b[n];
      CollidersAppend(a, b[..n], wallsOnly);
    }
  }

  /** A wall is a mesh, so a node collected as a wall would also be
      collected as an environment mesh. */
  lemma {:induction false} WallsAreMeshes(nodes: seq<SceneNode>, o: object)
    ensures o in Colliders(nodes, true) ==> o in Colliders(nodes, false)
  {
    CollidersExactly(nodes, true, o);
    CollidersExactly(nodes, false, o);
  }

  /** One traversal: every picked node is pushed onto the shared list, in
      visiting order, after what it already held. */
  method PushColliders(nodes: seq<SceneNode>, list: MeshList, wallsOnly: bool)
    modifies list
    ensures list.items == old(list.items) + Colliders(nodes, wallsOnly)
  {
    var i := 0;
    while i < |nodes|
      invariant 0 <= i <= |nodes|
      invariant list.items == old(list.items) + Colliders(nodes[..i], wallsOnly)
    {
      assert nodes[..i + 1][..i] == nodes[..i];
      if Picked(nodes[i], wallsOnly) {
        list.Push(nodes[i].obj);
      }
      i := i + 1;
    }
    assert nodes[..i] == nodes;
  }

  /** Start-up: an empty list filled with the walls of the scene. */
  method CollectWalls(nodes: seq<SceneNode>) returns (list: MeshList)
    ensures fresh(list) && list.items == Colliders(nodes, true)
  {
    list := new MeshList();
    PushColliders(nodes, list, true);
  }
}
