/** The read accessors handed to the tangent generator: the face count, the
    corner count of a face, and the position, normal and texture coordinate
    of a corner. Each is a pure lookup through the face table; the program
    checks no bounds, so the lookups that it would perform out of bounds are
    excluded by `requires`. */
module MeshQuery {
  import opened MeshStore

  /** `get_num_faces`: the number of stored faces. */
  function GetNumFaces<F>(m: Mesh<F>): nat {
    |m.faces|
  }

  /** `get_num_vertices_of_face`: every face is a triangle, whatever index is
      asked about (the face index is not even read). */
  function GetNumVerticesOfFace<F>(m: Mesh<F>, f: int): (n: nat)
    ensures n == CornersPerFace
  {
    3
  }

  /** Corner `(f, v)` exists and its position index is inside the array. */
  predicate HasPosition<F>(m: Mesh<F>, f: int, v: int) {
    m.IsCorner(f, v) && 0 <= m.faces[f].Corner(v).position < |m.positions|
  }

  /** Corner `(f, v)` exists and its normal index is inside the array. */
  predicate HasNormal<F>(m: Mesh<F>, f: int, v: int) {
    m.IsCorner(f, v) && 0 <= m.faces[f].Corner(v).normal < |m.normals|
  }

  /** Corner `(f, v)` exists and its texture-coordinate index is inside the
      array. */
  predicate HasTexCoord<F>(m: Mesh<F>, f: int, v: int) {
    m.IsCorner(f, v) && 0 <= m.faces[f].Corner(v).texCoord < |m.texCoords|
  }

  /** All three attribute lookups for corner `(f, v)` stay in bounds. */
  predicate Resolves<F>(m: Mesh<F>, f: int, v: int) {
    HasPosition(m, f, v) && HasNormal(m, f, v) && HasTexCoord(m, f, v)
  }

  /** `get_position`: a copy of the three components the corner designates. */
  function GetPosition<F>(m: Mesh<F>, f: int, v: int): Vec3<F>
    requires HasPosition(m, f, v)
  {
    m.positions[m.faces[f].Corner(v).position]
  }

  /** `get_normal`: a copy of the three components the corner designates. */
  function GetNormal<F>(m: Mesh<F>, f: int, v: int): Vec3<F>
    requires HasNormal(m, f, v)
  {
    m.normals[m.faces[f].Corner(v).normal]
  }

  /** `get_tex_coord`: a copy of the two components the corner designates. */
  function GetTexCoord<F>(m: Mesh<F>, f: int, v: int): Vec2<F>
    requires HasTexCoord(m, f, v)
  {
    m.texCoords[m.faces[f].Corner(v).texCoord]
  }

  /** On a well-formed mesh every corner the face and corner counts announce
      can be queried, and each answer is an element of the stored array. */
  lemma ValidMeshAnswersEveryCorner<F>(m: Mesh<F>, f: int, v: int)
    requires m.Valid()
    requires 0 <= f < GetNumFaces(m) && 0 <= v < GetNumVerticesOfFace(m, f)
    ensures Resolves(m, f, v)
    ensures GetPosition(m, f, v) in m.positions
    ensures GetNormal(m, f, v) in m.normals
    ensures GetTexCoord(m, f, v) in m.texCoords
  {
  }
}
