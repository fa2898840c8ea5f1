/** The two result callbacks the tangent generator calls once per corner.
    The basic form resolves the corner through the face table and reports
    it together with the tangent and its sign, numbered by a counter that
    the program keeps in a `static int`; here the counter is explicit state
    threaded from call to call. The extended form turns the orientation flag
    into a sign and hands over to the basic form. */
module ResultSink {
  import opened MeshStore
  import opened MeshQuery

  /** The sink's state: the number of results received so far. */
  datatype Sink = Sink(count: nat)

  /** The counter before the first result (`static int i = 0`). */
  const Fresh: Sink := Sink(0)

  /** What one call reports about its corner, without the text formatting:
      its number, the corner's attributes, and the tangent with its sign. */
  datatype Report<F> = Report(
    index: nat,
    position: Vec3<F>,
    normal: Vec3<F>,
    texCoord: Vec2<F>,
    tangent: Vec3<F>,
    sign: real)

  /** `set_tspace_basic`: reports corner `(f, v)` with tangent `t` and sign
      `sign`, numbered by the counter, and advances the counter by one. */
  function SetTSpaceBasic<F>(s: Sink, m: Mesh<F>, t: Vec3<F>, sign: real, f: int, v: int)
    : (r: (Sink, Report<F>))
    requires Resolves(m, f, v)
    ensures r.0.count == s.count + 1
    ensures r.1.index == s.count
    ensures r.1.position == GetPosition(m, f, v)
    ensures r.1.normal == GetNormal(m, f, v)
    ensures r.1.texCoord == GetTexCoord(m, f, v)
    ensures r.1.tangent == t && r.1.sign == sign
  {
    var w := m.faces[f].Corner(v);
    (Sink(s.count + 1),
     Report(s.count, m.positions[w.position], m.normals[w.normal], m.texCoords[w.texCoord], t, sign))
  }

  /** The sign the extended form passes on for orientation flag `op`. */
  function OrientationSign(op: int): (sign: real)
    ensures sign == 1.0 || sign == -1.0
    ensures sign == 1.0 <==> op != 0
  {
    if op != 0 then 1.0 else -1.0
  }

  /** `set_tspace`: forwards the tangent and the corner to the basic form
      with sign `+1` for a nonzero (orientation-preserving) flag and `-1`
      otherwise; the bitangent `b` and the magnitudes are not used. */
  function SetTSpace<F>(s: Sink, m: Mesh<F>, t: Vec3<F>, b: Vec3<F>, magS: F, magT: F,
                        op: int, f: int, v: int): (r: (Sink, Report<F>))
    requires Resolves(m, f, v)
    ensures r.1.sign == 1.0 <==> op != 0
    ensures r.1.sign == -1.0 <==> op == 0
    ensures r.1.tangent == t
    ensures r.0.count == s.count + 1 && r.1.index == s.count
    ensures r.1.position == GetPosition(m, f, v)
    ensures r.1.normal == GetNormal(m, f, v)
    ensures r.1.texCoord == GetTexCoord(m, f, v)
  {
    SetTSpaceBasic(s, m, t, OrientationSign(op), f, v)
  }

  /** The two forms agree: the extended form with flag `op` does exactly what
      the basic form does with the sign that flag stands for, whatever the
      bitangent and the magnitudes. */
  lemma FormsAgree<F>(s: Sink, m: Mesh<F>, t: Vec3<F>, b: Vec3<F>, magS: F, magT: F,
                      op: int, sign: real, f: int, v: int)
    requires Resolves(m, f, v)
    requires sign == 1.0 || sign == -1.0
    requires sign == 1.0 <==> op != 0
    ensures SetTSpace(s, m, t, b, magS, magT, op, f, v) == SetTSpaceBasic(s, m, t, sign, f, v)
  {
  }

  /** One call of either callback, as the generator issues it. */
  datatype Call<F> =
    | Basic(t: Vec3<F>, sign: real, f: int, v: int)
    | Extended(t: Vec3<F>, b: Vec3<F>, magS: F, magT: F, op: int, f: int, v: int)

  /** The sign the call delivers. */
  function CallSign<F>(c: Call<F>): real {
    match c
    case Basic(_, sign, _, _) => sign
    case Extended(_, _, _, _, op, _, _) => OrientationSign(op)
  }

  /** Issues one call against the sink. */
  function Deliver<F>(s: Sink, m: Mesh<F>, c: Call<F>): (r: (Sink, Report<F>))
    requires Resolves(m, c.f, c.v)
  {
    match c
    case Basic(t, sign, f, v) => SetTSpaceBasic(s, m, t, sign, f, v)
    case Extended(t, b, magS, magT, op, f, v) => SetTSpace(s, m, t, b, magS, magT, op, f, v)
  }

  /** Every call names a corner the sink can resolve. */
  predicate CallsResolve<F>(m: Mesh<F>, calls: seq<Call<F>>) {
    forall k :: 0 <= k < |calls| ==> Resolves(m, calls[k].f, calls[k].v)
  }

  /** A sequence of calls against the sink, in order: the final state and
      the reports. Call `k` is numbered by the number of calls before it,
      and reports the corner it names as the queries see it. */
  function Run<F>(s: Sink, m: Mesh<F>, calls: seq<Call<F>>): (r: (Sink, seq<Report<F>>))
    requires CallsResolve(m, calls)
    ensures r.0.count == s.count + |calls|
    ensures |r.1| == |calls|
    ensures forall k :: 0 <= k < |calls| ==> r.1[k].index == s.count + k
    ensures forall k :: 0 <= k < |calls| ==>
              && r.1[k].position == GetPosition(m, calls[k].f, calls[k].v)
              && r.1[k].normal == GetNormal(m, calls[k].f, calls[k].v)
              && r.1[k].texCoord == GetTexCoord(m, calls[k].f, calls[k].v)
              && r.1[k].tangent == calls[k].t
              && r.1[k].sign == CallSign(calls[k])
    decreases |calls|
  {
    if calls == [] then (s, [])
    else
      var (s1, report) := Deliver(s, m, calls[0]);
      var (s2, reports) := Run(s1, m, calls[1..]);
      (s2, [report] + reports)
  }

  /** From a fresh sink, after `k` calls the counter is `k`, and the reports
      are numbered `0, 1, ..., k - 1` in call order. */
  lemma CounterCountsCalls<F>(m: Mesh<F>, calls: seq<Call<F>>)
    requires CallsResolve(m, calls)
    ensures Run(Fresh, m, calls).0.count == |calls|
    ensures forall k :: 0 <= k < |calls| ==> Run(Fresh, m, calls).1[k].index == k
  {
  }
}
