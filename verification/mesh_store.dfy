/** The indexed triangle mesh that backs the tangent-space callbacks: three
    parallel per-vertex attribute arrays and a face table whose corners refer
    into those arrays. Corners hold indices where the program holds borrowed
    pointers (`&positions[k]` is index `k`). Attribute components have the
    opaque type `F`, since the program only copies them. */
module MeshStore {

  /** Three components (`float[3]`): a position, a normal or a tangent. */
  datatype Vec3<F> = Vec3(x: F, y: F, z: F)

  /** Two components (`float[2]`): a texture coordinate. */
  datatype Vec2<F> = Vec2(u: F, v: F)

  /** Every face is a triangle. */
  const CornersPerFace: nat := 3

  /** One corner of a face (`struct vertex`): the index of the position, of
      the normal and of the texture coordinate it designates. The three need
      not agree, and nothing keeps them inside the arrays, hence `int`. */
  datatype Vertex = Vertex(position: int, normal: int, texCoord: int)

  /** A face (`struct face`): exactly three corners, in order. */
  datatype Face = Face(v0: Vertex, v1: Vertex, v2: Vertex) {

    /** Corner `j` of the face, `vertices[j]` in the program. */
    function Corner(j: int): Vertex
      requires 0 <= j < CornersPerFace
    {
      if j == 0 then v0 else if j == 1 then v1 else v2
    }
  }

  /** The mesh (`struct input`): the owned attribute arrays and the faces. */
  datatype Mesh<F> = Mesh(
    positions: seq<Vec3<F>>,
    normals: seq<Vec3<F>>,
    texCoords: seq<Vec2<F>>,
    faces: seq<Face>)
  {

    /** `nr_vertices`: the common length of the attribute arrays. */
    function NrVertices(): nat {
      |positions|
    }

    /** The three attribute arrays have the same length. */
    predicate Parallel() {
      |normals| == |positions| && |texCoords| == |positions|
    }

    /** `(f, j)` names a corner that exists. */
    predicate IsCorner(f: int, j: int) {
      0 <= f < |faces| && 0 <= j < CornersPerFace
    }

    /** Every index of `w` designates an element of its array. */
    predicate ValidVertex(w: Vertex) {
      && 0 <= w.position < |positions|
      && 0 <= w.normal < |normals|
      && 0 <= w.texCoord < |texCoords|
    }

    /** A well-formed mesh: parallel arrays, and every corner of every face
        stays inside them. */
    predicate Valid() {
      && Parallel()
      && forall f, j :: 0 <= f < |faces| && 0 <= j < CornersPerFace ==>
           ValidVertex(faces[f].Corner(j))
    }
  }
}
