/** Concrete runs of the loader, the queries and the sink together. */
module Scenarios {
  import opened MeshStore
  import opened MeshQuery
  import opened ObjLoader
  import opened ResultSink

  /** A line `f 1/4/7 2/5/8 3/6/9`: only the third integer of each triplet
      is kept, so the corners designate elements 6, 7 and 8 of all three
      arrays, and the position indices 1, 2, 3 that OBJ's `v/vt/vn` order
      puts first are lost. */
  lemma TripletCollapse()
    ensures FaceOf([1, 4, 7, 2, 5, 8, 3, 6, 9])
              == Face(Vertex(6, 6, 6), Vertex(7, 7, 7), Vertex(8, 8, 8))
  {
    ScanFullRecord(Uninitialized, [1, 4, 7, 2, 5, 8, 3, 6, 9]);
  }

  /** One triangle `f 1/1/1 2/2/2 3/3/3` over three vertices, each corner
      reported once: the sink numbers the reports 0, 1, 2, each carries the
      attributes of its own vertex, and the counter ends at 3. */
  lemma SingleTriangle<F>(p: seq<Vec3<F>>, n: seq<Vec3<F>>, uv: seq<Vec2<F>>, t: Vec3<F>)
    requires |p| == 3 && |n| == 3 && |uv| == 3
    ensures Load(p, n, uv, [[1, 1, 1, 2, 2, 2, 3, 3, 3]]).Valid()
    ensures CallsResolve(Load(p, n, uv, [[1, 1, 1, 2, 2, 2, 3, 3, 3]]),
                         [Basic(t, 1.0, 0, 0), Basic(t, 1.0, 0, 1), Basic(t, 1.0, 0, 2)])
    ensures Run(Fresh, Load(p, n, uv, [[1, 1, 1, 2, 2, 2, 3, 3, 3]]),
                [Basic(t, 1.0, 0, 0), Basic(t, 1.0, 0, 1), Basic(t, 1.0, 0, 2)]).0.count == 3
    ensures forall k :: 0 <= k < 3 ==>
              var reports := Run(Fresh, Load(p, n, uv, [[1, 1, 1, 2, 2, 2, 3, 3, 3]]),
                                 [Basic(t, 1.0, 0, 0), Basic(t, 1.0, 0, 1), Basic(t, 1.0, 0, 2)]).1;
              reports[k].index == k && reports[k].position == p[k] && reports[k].normal == n[k]
              && reports[k].texCoord == uv[k]
  {
    var r: FaceRecord := [1, 1, 1, 2, 2, 2, 3, 3, 3];
    var m := Load(p, n, uv, [r]);
    FaceOfUsesThirdInteger(r, 0);
    FaceOfUsesThirdInteger(r, 1);
    FaceOfUsesThirdInteger(r, 2);
    LoadValidIff(p, n, uv, [r]);
    assert m.faces[0] == FaceOf(r);
  }
}
