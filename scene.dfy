/** The parts of a three.js scene graph the core touches: renderable objects,
    known only by identity, and a scene holding a set of them. */
module SceneGraph {

  /** A THREE.Points or THREE.Line; geometry and material are not modelled. */
  class Object3D {
    constructor ()
    {
    }
  }

  class Scene {
    var children: set<object>

    constructor ()
      ensures children == {}
    {
      children := {};
    }

    /** `scene.add(o)`. */
    method Add(o: object)
      modifies this
      ensures children == old(children) + {o}
    {
      children := children + {o};
    }

    /** `scene.remove(o)`; removing an absent object does nothing. */
    method Remove(o: object)
      modifies this
      ensures children == old(children) - {o}
    {
      children := children - {o};
    }
  }

  /** A JavaScript array of scene objects shared by reference: main.js fills
      the collision list after handing it to the camera, which sees every
      later push. */
  class MeshList {
    var items: seq<object>

    constructor ()
      ensures items == []
    {
      items := [];
    }

    /** `array.push(o)`. */
    method Push(o: object)
      modifies this
      ensures items == old(items) + [o]
    {
      items := items + [o];
    }
  }
}
