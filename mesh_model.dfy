/**
 * src/MeshModel.cpp: flattening an imported scene (an abstract node tree standing in for the
 * assimp types) into a list of meshes, building the material-to-texture list, and the
 * MeshModel class that owns a mesh list and a model matrix.
 */
module Models {
  import opened Vulkan
  import opened Wrappers

  /** Floats are carried as their 32-bit patterns; nothing is computed on them. */
  datatype Vec3 = Vec3(x: bv32, y: bv32, z: bv32)
  datatype Vec2 = Vec2(x: bv32, y: bv32)

  /** A polygon of the imported mesh: its vertex indices. */
  datatype Face = Face(indices: seq<uint32>)

  /**
   * An imported mesh: positions, texture-coordinate channel 0 if present (three components
   * per vertex, as the importer stores them), faces, and the index of its material.
   */
  datatype SceneMesh = SceneMesh(vertices: seq<Vec3>, textureCoords0: Option<seq<Vec3>>, faces: seq<Face>, materialIndex: nat)

  /**
   * An imported material: how many diffuse textures it has, and the path that fetching
   * diffuse texture 0 returns (None when the fetch fails).
   */
  datatype Material = Material(diffuseTextureCount: nat, diffuseTexture: Option<string>)

  /** A scene node: the indices of its meshes in the scene's mesh array, and its children. */
  datatype Node = Node(meshes: seq<nat>, children: seq<Node>)

  datatype Scene = Scene(meshes: seq<SceneMesh>, materials: seq<Material>, rootNode: Node)

  /** A vertex as LoadMesh builds it (its constant colour is not modelled). */
  datatype ModelVertex = ModelVertex(position: Vec3, textureCoords: Vec2)

  /** A mesh, abstracted to its contents: vertices, indices, texture id and whether its buffers are live. */
  datatype MeshRecord = MeshRecord(vertices: seq<ModelVertex>, indices: seq<uint32>, textureId: int, buffersLive: bool)

  /** The bit pattern of 1.0f. */
  const FLOAT_ONE: bv32 := 0x3F80_0000

  /** A glm::mat4 as 16 float bit patterns, column by column. */
  type Mat4 = m: seq<bv32> | |m| == 16 witness seq(16, _ => 0)

  /** glm::mat4(1.0f): ones on the diagonal, zeros elsewhere. */
  const IDENTITY: Mat4 := seq(16, i => if i % 5 == 0 then FLOAT_ONE else 0)

  // ---------------------------------------------------------------------------------------
  // Faces

  /** The faces' index lists concatenated in face order. */
  function FaceIndices(faces: seq<Face>): seq<uint32>
  {
    if faces == [] then [] else FaceIndices(faces[..|faces| - 1]) + faces[|faces| - 1].indices
  }

  /** The sum of the faces' index counts. */
  function IndexCount(faces: seq<Face>): nat
  {
    if faces == [] then 0 else IndexCount(faces[..|faces| - 1]) + |faces[|faces| - 1].indices|
  }

  lemma {:induction false} FaceIndicesLength(faces: seq<Face>)
    ensures |FaceIndices(faces)| == IndexCount(faces)
  {
    if faces != [] {
      FaceIndicesLength(faces[..|faces| - 1]);
    }
  }

  /** Concatenating face lists concatenates their index lists. */
  lemma {:induction false} FaceIndicesAppend(front: seq<Face>, back: seq<Face>)
    ensures FaceIndices(front + back) == FaceIndices(front) + FaceIndices(back)
  {
    if back != [] {
      var last := |back| - 1;
      assert (front + back)[..|front + back| - 1] == front + back[..last];
      FaceIndicesAppend(front, back[..last]);
    } else {
      assert front + back == front;
    }
  }

  // ---------------------------------------------------------------------------------------
  // Meshes

  /** The importer's guarantee: channel 0, when present, has one entry per vertex. */
  predicate WellFormed(mesh: SceneMesh)
  {
    mesh.textureCoords0.Some? ==> |mesh.textureCoords0.value| == |mesh.vertices|
  }

  /** What LoadMesh needs: a well-formed mesh whose material has an entry in the texture list. */
  predicate MeshLoadable(mesh: SceneMesh, materialToTexture: seq<int>)
  {
    WellFormed(mesh) && mesh.materialIndex < |materialToTexture|
  }

  /** Vertex i of the loaded mesh: its position, and channel-0 (x, y) or the zero default. */
  function VertexOf(mesh: SceneMesh, i: nat): (v: ModelVertex)
    requires WellFormed(mesh) && i < |mesh.vertices|
    ensures v.position == mesh.vertices[i]
    ensures mesh.textureCoords0.Some? ==>
      v.textureCoords == Vec2(mesh.textureCoords0.value[i].x, mesh.textureCoords0.value[i].y)
    ensures mesh.textureCoords0.None? ==> v.textureCoords == Vec2(0, 0)
  {
    var coords := match mesh.textureCoords0
      case Some(channel) => Vec2(channel[i].x, channel[i].y)
      case None => Vec2(0, 0);
    ModelVertex(mesh.vertices[i], coords)
  }

  /**
   * The mesh LoadMesh builds from an imported one: one vertex per imported vertex, the
   * faces' indices concatenated in face order, the texture of the mesh's material, buffers live.
   */
  predicate LoadedAs(record: MeshRecord, mesh: SceneMesh, materialToTexture: seq<int>)
    requires MeshLoadable(mesh, materialToTexture)
  {
    && |record.vertices| == |mesh.vertices|
    && (forall i :: 0 <= i < |mesh.vertices| ==> record.vertices[i] == VertexOf(mesh, i))
    && record.indices == FaceIndices(mesh.faces)
    && record.textureId == materialToTexture[mesh.materialIndex]
    && record.buffersLive
  }

  /**
   * Copies the vertices across, concatenates the faces' indices in nested loops and looks
   * up the texture of the mesh's material.
   */
  method LoadMesh(mesh: SceneMesh, materialToTexture: seq<int>) returns (newMesh: MeshRecord)
    requires MeshLoadable(mesh, materialToTexture)
    ensures LoadedAs(newMesh, mesh, materialToTexture)
    ensures |newMesh.indices| == IndexCount(mesh.faces)
  {
    var vertices := new ModelVertex[|mesh.vertices|](_ => ModelVertex(Vec3(0, 0, 0), Vec2(0, 0)));
    var i := 0;
    while i < |mesh.vertices|
      invariant 0 <= i <= |mesh.vertices|
      invariant forall k :: 0 <= k < i ==> vertices[k] == VertexOf(mesh, k)
    {
      var coords: Vec2;
      if mesh.textureCoords0.Some? {
        coords := Vec2(mesh.textureCoords0.value[i].x, mesh.textureCoords0.value[i].y);
      } else {
        coords := Vec2(0, 0);
      }
      vertices[i] := ModelVertex(mesh.vertices[i], coords);
      i := i + 1;
    }

    var indices: seq<uint32> := [];
    i := 0;
    while i < |mesh.faces|
      invariant 0 <= i <= |mesh.faces|
      invariant indices == FaceIndices(mesh.faces[..i])
    {
      var face := mesh.faces[i];
      var j := 0;
      while j < |face.indices|
        invariant 0 <= j <= |face.indices|
        invariant indices == FaceIndices(mesh.faces[..i]) + face.indices[..j]
      {
        indices := indices + [face.indices[j]];
        j := j + 1;
      }
      assert mesh.faces[..i + 1][..i] == mesh.faces[..i];
      i := i + 1;
    }
    assert mesh.faces[..|mesh.faces|] == mesh.faces;
    FaceIndicesLength(mesh.faces);

    newMesh := MeshRecord(vertices[..], indices, materialToTexture[mesh.materialIndex], true);
  }

  // ---------------------------------------------------------------------------------------
  // Scene tree

  /** The mesh references of a subtree in pre-order: the node's own, then each child's in order. */
  function Flatten(node: Node): seq<nat>
    decreases node, 1
  {
    node.meshes + FlattenAll(node.children)
  }

  function FlattenAll(nodes: seq<Node>): seq<nat>
    decreases nodes, 0
  {
    if nodes == [] then [] else FlattenAll(nodes[..|nodes| - 1]) + Flatten(nodes[|nodes| - 1])
  }

  /** The number of meshes in a subtree, counted node by node. */
  function MeshCount(node: Node): nat
    decreases node, 1
  {
    |node.meshes| + MeshCountAll(node.children)
  }

  function MeshCountAll(nodes: seq<Node>): nat
    decreases nodes, 0
  {
    if nodes == [] then 0 else MeshCountAll(nodes[..|nodes| - 1]) + MeshCount(nodes[|nodes| - 1])
  }

  lemma {:induction false} FlattenLength(node: Node)
    ensures |Flatten(node)| == MeshCount(node)
    decreases node, 1
  {
    FlattenAllLength(node.children);
  }

  lemma {:induction false} FlattenAllLength(nodes: seq<Node>)
    ensures |FlattenAll(nodes)| == MeshCountAll(nodes)
    decreases nodes, 0
  {
    if nodes != [] {
      FlattenAllLength(nodes[..|nodes| - 1]);
      FlattenLength(nodes[|nodes| - 1]);
    }
  }

  /** A root with mesh 0, a child holding mesh 1 above a grandchild with mesh 2, and a second child with mesh 3. */
  lemma FlattenIsPreOrder()
    ensures Flatten(Node([0], [Node([1], [Node([2], [])]), Node([3], [])])) == [0, 1, 2, 3]
  {
    var grandchild := Node([2], []);
    var first := Node([1], [grandchild]);
    var second := Node([3], []);
    assert Flatten(grandchild) == [2];
    assert [first, second][..1] == [first];
    assert Flatten(first) == [1, 2];
    assert FlattenAll([first, second]) == [1, 2, 3];
  }

  /** The references of the first j children all occur among those of all the children. */
  lemma {:induction false} FlattenPrefixIn(nodes: seq<Node>, j: nat)
    requires j <= |nodes|
    ensures forall r :: r in FlattenAll(nodes[..j]) ==> r in FlattenAll(nodes)
    decreases |nodes|
  {
    if j < |nodes| {
      var front := nodes[..|nodes| - 1];
      assert front[..j] == nodes[..j];
      FlattenPrefixIn(front, j);
    } else {
      assert nodes[..j] == nodes;
    }
  }

  /** Every reference exists in the scene and its mesh can be loaded. */
  predicate RefsLoadable(scene: Scene, refs: seq<nat>, materialToTexture: seq<int>)
  {
    forall r :: r in refs ==> r < |scene.meshes| && MeshLoadable(scene.meshes[r], materialToTexture)
  }

  /** The mesh list is the referenced scene meshes, loaded, in reference order. */
  predicate LoadedFrom(meshList: seq<MeshRecord>, scene: Scene, refs: seq<nat>, materialToTexture: seq<int>)
    requires RefsLoadable(scene, refs, materialToTexture)
  {
    && |meshList| == |refs|
    && forall k :: 0 <= k < |refs| ==>
         assert refs[k] in refs;
         LoadedAs(meshList[k], scene.meshes[refs[k]], materialToTexture)
  }

  /** Loaded lists for two reference lists concatenate to the loaded list of their concatenation. */
  lemma LoadedFromAppend(front: seq<MeshRecord>, back: seq<MeshRecord>, scene: Scene,
                         frontRefs: seq<nat>, backRefs: seq<nat>, materialToTexture: seq<int>)
    requires RefsLoadable(scene, frontRefs + backRefs, materialToTexture)
    ensures RefsLoadable(scene, frontRefs, materialToTexture) && RefsLoadable(scene, backRefs, materialToTexture)
    ensures LoadedFrom(front, scene, frontRefs, materialToTexture) && LoadedFrom(back, scene, backRefs, materialToTexture)
        ==> LoadedFrom(front + back, scene, frontRefs + backRefs, materialToTexture)
  {
    assert forall r :: r in frontRefs ==> r in frontRefs + backRefs;
    assert forall r :: r in backRefs ==> r in frontRefs + backRefs;
    if LoadedFrom(front, scene, frontRefs, materialToTexture) && LoadedFrom(back, scene, backRefs, materialToTexture) {
      var refs := frontRefs + backRefs;
      forall k | 0 <= k < |refs|
        ensures LoadedAs((front + back)[k], scene.meshes[refs[k]], materialToTexture)
      {
        if k < |frontRefs| {
          assert frontRefs[k] in frontRefs;
        } else {
          assert backRefs[k - |frontRefs|] in backRefs;
        }
      }
    }
  }

  /**
   * Loads the node's own meshes in order, then appends each child's loaded list in child
   * order: the subtree's meshes in pre-order.
   */
  method LoadNode(node: Node, scene: Scene, materialToTexture: seq<int>) returns (meshList: seq<MeshRecord>)
    requires RefsLoadable(scene, Flatten(node), materialToTexture)
    ensures LoadedFrom(meshList, scene, Flatten(node), materialToTexture)
    ensures |meshList| == MeshCount(node)
    decreases node
  {
    meshList := [];
    var i := 0;
    while i < |node.meshes|
      invariant 0 <= i <= |node.meshes|
      invariant RefsLoadable(scene, node.meshes[..i], materialToTexture)
      invariant LoadedFrom(meshList, scene, node.meshes[..i], materialToTexture)
    {
      var ref := node.meshes[i];
      assert ref in Flatten(node);
      var mesh := LoadMesh(scene.meshes[ref], materialToTexture);
      assert node.meshes[..i + 1] == node.meshes[..i] + [ref];
      LoadedFromAppend(meshList, [mesh], scene, node.meshes[..i], [ref], materialToTexture);
      meshList := meshList + [mesh];
      i := i + 1;
    }
    assert node.meshes[..i] == node.meshes;

    i := 0;
    while i < |node.children|
      invariant 0 <= i <= |node.children|
      invariant RefsLoadable(scene, node.meshes + FlattenAll(node.children[..i]), materialToTexture)
      invariant LoadedFrom(meshList, scene, node.meshes + FlattenAll(node.children[..i]), materialToTexture)
    {
      var child := node.children[i];
      var done := node.meshes + FlattenAll(node.children[..i]);
      assert node.children[..i + 1][..i] == node.children[..i];
      assert node.meshes + FlattenAll(node.children[..i + 1]) == done + Flatten(child);
      ChildRefsLoadable(node, i + 1, scene, materialToTexture);
      assert forall r :: r in Flatten(child) ==> r in done + Flatten(child);
      var newList := LoadNode(child, scene, materialToTexture);
      LoadedFromAppend(meshList, newList, scene, done, Flatten(child), materialToTexture);
      meshList := meshList + newList;
      i := i + 1;
    }
    assert node.children[..i] == node.children;
    FlattenLength(node);
  }

  /** The references of the node's own meshes and its first j children are among the subtree's. */
  lemma ChildRefsLoadable(node: Node, j: nat, scene: Scene, materialToTexture: seq<int>)
    requires j <= |node.children|
    requires RefsLoadable(scene, Flatten(node), materialToTexture)
    ensures RefsLoadable(scene, node.meshes + FlattenAll(node.children[..j]), materialToTexture)
  {
    FlattenPrefixIn(node.children, j);
  }

  /**
   * One entry per material: the path of its first diffuse texture when it has one and
   * fetching it succeeds, the empty string otherwise.
   */
  method LoadMaterials(scene: Scene) returns (textureList: seq<string>)
    ensures |textureList| == |scene.materials|
    ensures forall i :: 0 <= i < |scene.materials| ==>
      var material := scene.materials[i];
      if material.diffuseTextureCount != 0 && material.diffuseTexture.Some?
      then textureList[i] == material.diffuseTexture.value
      else textureList[i] == ""
  {
    var textures := new string[|scene.materials|];
    var i := 0;
    while i < |scene.materials|
      invariant 0 <= i <= |scene.materials|
      invariant forall k :: 0 <= k < i ==>
        var material := scene.materials[k];
        if material.diffuseTextureCount != 0 && material.diffuseTexture.Some?
        then textures[k] == material.diffuseTexture.value
        else textures[k] == ""
    {
      var material := scene.materials[i];
      textures[i] := "";
      if material.diffuseTextureCount != 0 {
        match material.diffuseTexture {
          case Some(path) => textures[i] := path;
          case None =>
        }
      }
      i := i + 1;
    }
    textureList := textures[..];
  }

  /** A loaded model: its meshes and its model matrix. */
  class MeshModel {
    var meshList: seq<MeshRecord>
    var model: Mat4
    /** The indices of the meshes DestroyBuffers has been called on, in call order. */
    var destroyedMeshes: seq<nat>

    constructor (newMeshList: seq<MeshRecord>)
      ensures meshList == newMeshList && model == IDENTITY && destroyedMeshes == []
    {
      meshList := newMeshList;
      model := IDENTITY;
      destroyedMeshes := [];
    }

    /** The mesh at index, or the error the source throws for an index past the end. */
    function GetMesh(index: nat): (r: Result<MeshRecord>)
      reads this
      ensures r.Err? <==> index >= |meshList|
      ensures r.Err? ==> r.error == "Attempted to access invalid mesh index"
      ensures r.Ok? ==> index < |meshList| && r.value == meshList[index]
    {
      if index >= |meshList| then Err("Attempted to access invalid mesh index") else Ok(meshList[index])
    }

    method SetModel(newModel: Mat4)
      modifies this`model
      ensures model == newModel
    {
      model := newModel;
    }

    /** Calls DestroyBuffers on every mesh, in list order, once each. */
    method DestroyMeshModel()
      modifies this`meshList, this`destroyedMeshes
      ensures |meshList| == |old(meshList)|
      ensures forall i :: 0 <= i < |meshList| ==> meshList[i] == old(meshList[i]).(buffersLive := false)
      ensures destroyedMeshes == old(destroyedMeshes) + seq(|meshList|, i => i)
    {
      var i := 0;
      while i < |meshList|
        invariant 0 <= i <= |meshList| && |meshList| == |old(meshList)|
        invariant forall k :: 0 <= k < i ==> meshList[k] == old(meshList[k]).(buffersLive := false)
        invariant forall k :: i <= k < |meshList| ==> meshList[k] == old(meshList[k])
        invariant destroyedMeshes == old(destroyedMeshes) + seq(i, k => k)
      {
        meshList := meshList[i := meshList[i].(buffersLive := false)];
        destroyedMeshes := destroyedMeshes + [i];
        assert seq(i + 1, k => k) == seq(i, k => k) + [i];
        i := i + 1;
      }
    }
  }
}
