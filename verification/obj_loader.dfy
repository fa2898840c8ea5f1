/** Building the face table from the integers of the OBJ face lines
    `f a/b/c a/b/c a/b/c`. The program hands all three integers of a corner's
    triplet to `sscanf` as the same destination `&v[j]`; conversions are
    stored in order (section 7.21.6.2 of ISO C11), so the third integer of
    each triplet is the one that survives. That 1-based value, minus one, is
    then used as the index into all three attribute arrays. */
module ObjLoader {
  import opened MeshStore
  import opened MeshQuery

  /** Where each of the nine `%d` conversions is stored: the argument list
      passes `&v[0]` three times, then `&v[1]` three times, then `&v[2]`. */
  const Destinations: seq<nat> := [0, 0, 0, 1, 1, 1, 2, 2, 2]

  /** The nine integers of one face line, in the order they appear. */
  type FaceRecord = r: seq<int> | |r| == 9 witness [0, 0, 0, 0, 0, 0, 0, 0, 0]

  function Min(a: int, b: int): int {
    if a <= b then a else b
  }

  lemma DestinationOf(k: nat)
    requires k < |Destinations|
    ensures Destinations[k] == k / 3
  {
  }

  /** Stores conversions `k`, `k + 1`, ... of `conv` into `v`, each into its
      destination slot, a later store overwriting an earlier one. */
  function StoreFrom(v: seq<int>, conv: seq<int>, k: nat): (r: seq<int>)
    requires |v| == 3 && k <= |conv| <= |Destinations|
    ensures |r| == 3
    decreases |conv| - k
  {
    if k == |conv| then v
    else StoreFrom(v[Destinations[k] := conv[k]], conv, k + 1)
  }

  /** The contents of `int v[3]` after `sscanf` converted the integers
      `conv` (a prefix of the line's nine when matching stops early),
      starting from the contents `v` the uninitialised array happened to
      hold. */
  function Scan(v: seq<int>, conv: seq<int>): (r: seq<int>)
    requires |v| == 3 && |conv| <= |Destinations|
  {
    StoreFrom(v, conv, 0)
  }

  /** Slot `j` ends up holding the last conversion among those from `k` on
      that targets it, or keeps its old value when none does. */
  lemma {:induction false} StoreFromSlot(v: seq<int>, conv: seq<int>, k: nat, j: int)
    requires |v| == 3 && k <= |conv| <= |Destinations| && 0 <= j < 3
    ensures StoreFrom(v, conv, k)[j] ==
              if k < |conv| && 3 * j < |conv| && k <= 3 * j + 2
              then conv[Min(3 * j + 2, |conv| - 1)]
              else v[j]
    decreases |conv| - k
  {
    if k < |conv| {
      DestinationOf(k);
      StoreFromSlot(v[Destinations[k] := conv[k]], conv, k + 1, j);
    }
  }

  /** Last write wins: slot `j` holds the last integer of triplet `j` that
      was converted, and is untouched when matching stopped before it. */
  lemma ScanSlot(v: seq<int>, conv: seq<int>, j: int)
    requires |v| == 3 && |conv| <= |Destinations| && 0 <= j < 3
    ensures Scan(v, conv)[j] ==
              if 3 * j < |conv| then conv[Min(3 * j + 2, |conv| - 1)] else v[j]
  {
    StoreFromSlot(v, conv, 0, j);
  }

  /** A complete line leaves exactly the third integer of each triplet in
      `v`, whatever the array held before. */
  lemma ScanFullRecord(v: seq<int>, r: FaceRecord)
    requires |v| == 3
    ensures Scan(v, r) == [r[2], r[5], r[8]]
  {
    ScanSlot(v, r, 0);
    ScanSlot(v, r, 1);
    ScanSlot(v, r, 2);
  }

  /** Stands for the indeterminate contents of `int v[3]`; by
      `ScanFullRecord` the choice does not affect a complete line. */
  const Uninitialized: seq<int> := [0, 0, 0]

  /** The third integer of triplet `j` of a line: the one `sscanf` leaves
      in `v[j]`. */
  function ThirdOf(r: FaceRecord, j: int): int
    requires 0 <= j < CornersPerFace
  {
    r[3 * j + 2]
  }

  /** The corner for OBJ index `k` (1-based): the same 0-based index into
      all three arrays. */
  function ObjVertex(k: int): Vertex {
    Vertex(k - 1, k - 1, k - 1)
  }

  /** The face built from one line, as the loop body does it. */
  function FaceOf(r: FaceRecord): Face {
    var v := Scan(Uninitialized, r);
    Face(ObjVertex(v[0]), ObjVertex(v[1]), ObjVertex(v[2]))
  }

  /** The face table: face `i` comes from line `i`. */
  function FaceTable(records: seq<FaceRecord>): seq<Face> {
    seq(|records|, i requires 0 <= i < |records| => FaceOf(records[i]))
  }

  /** The mesh after loading: the attribute arrays as read, and the faces. */
  function Load<F>(positions: seq<Vec3<F>>, normals: seq<Vec3<F>>, texCoords: seq<Vec2<F>>,
                   records: seq<FaceRecord>): Mesh<F>
  {
    Mesh(positions, normals, texCoords, FaceTable(records))
  }

  /** Corner `j` of the face built from `r` designates index `c - 1` of all
      three arrays, where `c` is the third integer of triplet `j`. */
  lemma FaceOfUsesThirdInteger(r: FaceRecord, j: int)
    requires 0 <= j < CornersPerFace
    ensures FaceOf(r).Corner(j).position == r[3 * j + 2] - 1
    ensures FaceOf(r).Corner(j).normal == FaceOf(r).Corner(j).position
    ensures FaceOf(r).Corner(j).texCoord == FaceOf(r).Corner(j).position
  {
    ScanFullRecord(Uninitialized, r);
  }

  /** The first two integers of every triplet, and the initial contents of
      `v`, have no influence on the face. */
  lemma FaceOfIgnoresFirstTwo(r1: FaceRecord, r2: FaceRecord, v1: seq<int>, v2: seq<int>)
    requires |v1| == 3 && |v2| == 3
    requires r1[2] == r2[2] && r1[5] == r2[5] && r1[8] == r2[8]
    ensures Scan(v1, r1) == Scan(v2, r2)
    ensures FaceOf(r1) == FaceOf(r2)
  {
    ScanFullRecord(v1, r1);
    ScanFullRecord(v2, r2);
    ScanFullRecord(Uninitialized, r1);
    ScanFullRecord(Uninitialized, r2);
  }

  /** The loading loop: one face per line, in order, each corner taken from
      the slot `sscanf` left for it. */
  method LoadFaces(records: seq<FaceRecord>) returns (faces: seq<Face>)
    ensures faces == FaceTable(records)
    ensures |faces| == |records|
    ensures forall i, j :: 0 <= i < |records| && 0 <= j < CornersPerFace ==>
              faces[i].Corner(j) == ObjVertex(records[i][3 * j + 2])
  {
    faces := [];
    var i := 0;
    while i < |records|
      invariant 0 <= i <= |records|
      invariant |faces| == i
      invariant forall k :: 0 <= k < i ==> faces[k] == FaceOf(records[k])
    {
      var v := Scan(Uninitialized, records[i]);
      var corners: seq<Vertex> := [];
      var j := 0;
      while j < CornersPerFace
        invariant 0 <= j <= CornersPerFace
        invariant |corners| == j
        invariant forall k :: 0 <= k < j ==> corners[k] == ObjVertex(v[k])
      {
        corners := corners + [ObjVertex(v[j])];
        j := j + 1;
      }
      faces := faces + [Face(corners[0], corners[1], corners[2])];
      i := i + 1;
    }
    forall i, j | 0 <= i < |records| && 0 <= j < CornersPerFace
      ensures faces[i].Corner(j) == ObjVertex(records[i][3 * j + 2])
    {
      FaceOfUsesThirdInteger(records[i], j);
    }
  }

  /** Loading keeps the attribute arrays as read and fills exactly one face
      per line, face `i` from line `i`. */
  lemma LoadShape<F>(positions: seq<Vec3<F>>, normals: seq<Vec3<F>>, texCoords: seq<Vec2<F>>,
                     records: seq<FaceRecord>)
    ensures GetNumFaces(Load(positions, normals, texCoords, records)) == |records|
    ensures Load(positions, normals, texCoords, records).positions == positions
    ensures Load(positions, normals, texCoords, records).normals == normals
    ensures Load(positions, normals, texCoords, records).texCoords == texCoords
    ensures forall i :: 0 <= i < |records| ==>
              Load(positions, normals, texCoords, records).faces[i] == FaceOf(records[i])
  {
  }

  /** Every third integer of every triplet lies in `[1, nr_vertices]`. */
  predicate ObjIndicesInRange(records: seq<FaceRecord>, nrVertices: int) {
    forall i, j :: 0 <= i < |records| && 0 <= j < CornersPerFace ==>
      1 <= ThirdOf(records[i], j) <= nrVertices
  }

  /** The loaded mesh is well-formed exactly when the three arrays have the
      same length and every surviving OBJ index lies in `[1, nr_vertices]`. */
  lemma LoadValidIff<F>(positions: seq<Vec3<F>>, normals: seq<Vec3<F>>, texCoords: seq<Vec2<F>>,
                        records: seq<FaceRecord>)
    ensures Load(positions, normals, texCoords, records).Valid() <==>
              && |normals| == |positions| && |texCoords| == |positions|
              && ObjIndicesInRange(records, |positions|)
  {
    var m := Load(positions, normals, texCoords, records);
    forall i, j | 0 <= i < |records| && 0 <= j < CornersPerFace
      ensures m.faces[i].Corner(j) == ObjVertex(ThirdOf(records[i], j))
    {
      FaceOfUsesThirdInteger(records[i], j);
    }
  }

  /** What is loaded is what is read: for a corner whose OBJ index `c` is in
      range, the three queries return element `c - 1` of the arrays given,
      the same element index for all three. */
  lemma LoadRoundTrip<F>(positions: seq<Vec3<F>>, normals: seq<Vec3<F>>, texCoords: seq<Vec2<F>>,
                         records: seq<FaceRecord>, f: int, v: int)
    requires 0 <= f < |records| && 0 <= v < CornersPerFace
    requires 1 <= records[f][3 * v + 2]
    requires records[f][3 * v + 2] <= |positions|
    requires records[f][3 * v + 2] <= |normals|
    requires records[f][3 * v + 2] <= |texCoords|
    ensures Resolves(Load(positions, normals, texCoords, records), f, v)
    ensures GetPosition(Load(positions, normals, texCoords, records), f, v)
              == positions[records[f][3 * v + 2] - 1]
    ensures GetNormal(Load(positions, normals, texCoords, records), f, v)
              == normals[records[f][3 * v + 2] - 1]
    ensures GetTexCoord(Load(positions, normals, texCoords, records), f, v)
              == texCoords[records[f][3 * v + 2] - 1]
  {
    FaceOfUsesThirdInteger(records[f], v);
  }
}
