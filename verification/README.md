# Tangent-space callback mesh: a Dafny model

This project models the mesh side of the tangent-space generator's callback
interface as the example program `examples/generate.c` implements it: an
indexed triangle mesh (three parallel attribute arrays and a face table whose
corners refer into them), the face table built from the integers of OBJ face
lines, the read accessors the generator calls (`get_num_faces`,
`get_num_vertices_of_face`, `get_position`, `get_normal`, `get_tex_coord`),
and the two result callbacks (`set_tspace_basic`, `set_tspace`).

Modules:

- `MeshStore` (`mesh_store.dfy`): `Vec3`, `Vec2`, `Vertex` (a corner: one
  index per attribute array, where the program holds borrowed pointers),
  `Face` (exactly three corners), `Mesh`, and the well-formedness predicate
  `Mesh.Valid` (parallel arrays, every corner index inside them).
- `MeshQuery` (`mesh_query.dfy`): the five accessors as pure lookups. The
  program checks no bounds, so each accessor `requires` the lookup it makes
  to be in bounds.
- `ObjLoader` (`obj_loader.dfy`): the face loop. `sscanf` is modelled as nine
  ordered stores into `v[Destinations[k]]`, with the destinations exactly as
  the argument list gives them (`&v[0]` three times, then `&v[1]`, then
  `&v[2]`). Since later stores overwrite earlier ones, only the third integer
  of each `a/b/c` triplet survives; that 1-based value minus one indexes all
  three arrays. The model keeps this behaviour as written. In OBJ's `v/vt/vn`
  order the surviving integer is the normal index, so the loader is only
  right for files whose triplets repeat one index (`f 1/1/1 ...`), which the
  program's equal-length arrays suggest it expects.
- `ResultSink` (`result_sink.dfy`): the counter that the program keeps in a
  `static int` is an explicit `Sink` state passed from call to call. Each
  call returns the new state and a `Report`: the content of the printed line
  without its formatting. `Run` models a sequence of calls.
- `Scenarios` (`scenarios.dfy`): concrete runs (the triplet collapse, one
  triangle reported corner by corner).

Attribute components have an opaque type `F`: the program only copies them.
The tangent sign is a `real`, because the extended form passes the exact
values `1.0f` and `-1.0f`. Functional values replace mutation, so "the mesh is
left unchanged" by a query or a sink call holds by construction.

## Model

| member | source | states |
|---|---|---|
| MeshQuery.GetNumVerticesOfFace | examples/generate.c:70-72 | every face reports exactly 3 corners, for any face index, in range or not |
| MeshQuery.ValidMeshAnswersEveryCorner | examples/generate.c:66-87 | on a well-formed mesh, every (face, corner) within the announced counts can be queried, and each query answers with an element of the stored array |
| ObjLoader.StoreFromSlot | examples/generate.c:174-180 | after the ordered stores from conversion k on, slot j holds the last conversion aimed at it, or its old value when none was |
| ObjLoader.ScanSlot | examples/generate.c:173-180 | after sscanf, v[j] holds the last converted integer of triplet j; a slot whose triplet was never reached keeps its indeterminate contents |
| ObjLoader.ScanFullRecord | examples/generate.c:174-180 | a complete face line leaves exactly the third integer of each triplet in v, whatever v held before |
| ObjLoader.FaceOfUsesThirdInteger | examples/generate.c:181-185 | corner j of a face designates index c - 1 of positions, normals and texture coordinates alike, where c is the third integer of triplet j |
| ObjLoader.FaceOfIgnoresFirstTwo | examples/generate.c:173-186 | two lines that agree on the third integers give the same face, whatever their other integers and whatever v held before |
| ObjLoader.LoadFaces | examples/generate.c:171-186 | the loop fills one face per line, in line order, each corner from the third integer of its triplet |
| ObjLoader.LoadShape | examples/generate.c:171-186 | after loading, the face count is the number of face lines, face i comes from line i, and the attribute arrays are the ones read |
| ObjLoader.LoadValidIff | examples/generate.c:182-184 | the loaded mesh is well-formed if and only if the arrays have equal length and every surviving OBJ index lies in [1, nr_vertices] |
| ObjLoader.LoadRoundTrip | examples/generate.c:74-87 | for a loaded corner with in-range OBJ index c, the position, normal and texture-coordinate queries return element c - 1 of the arrays that were loaded |
| ResultSink.SetTSpaceBasic | examples/generate.c:89-111 | the basic sink resolves (f, v) to the same attributes the queries return, passes tangent and sign through, numbers the report with the number of earlier calls and advances the counter by one |
| ResultSink.OrientationSign | examples/generate.c:123 | the sign is +1 or -1, and +1 exactly when the orientation flag is nonzero |
| ResultSink.SetTSpace | examples/generate.c:113-124 | the extended sink reports sign +1 iff the flag is nonzero and -1 iff it is zero, with the tangent and corner unchanged and the counter advanced by one |
| ResultSink.FormsAgree | examples/generate.c:113-124 | the extended form with flag op behaves exactly as the basic form with the sign the flag stands for, whatever the bitangent and magnitudes |
| ResultSink.Run | examples/generate.c:96-110 | over any sequence of calls the counter grows by the number of calls, call k is numbered by the count before it plus k, and each report carries its own corner's attributes, tangent and sign |
| ResultSink.CounterCountsCalls | examples/generate.c:97-110 | from the initial counter 0, after k calls the counter is k and the reports are numbered 0 to k - 1 in call order |
| Scenarios.TripletCollapse | examples/generate.c:174-184 | the line f 1/4/7 2/5/8 3/6/9 yields corners that designate elements 6, 7 and 8 of all three arrays |
| Scenarios.SingleTriangle | examples/generate.c:89-124 | one triangle over three vertices, reported corner by corner, gives reports numbered 0, 1, 2 that carry the attributes of vertices 0, 1, 2, and a final count of 3 |

## Left out

- Reading `cube.obj` with `fopen`/`fgets`/`sscanf` for the `v`, `vn` and `vt` lines (examples/generate.c:135-169): the parsed numbers are inputs.
- `print_vec2`, `print_vec3`, `print_tangent` and the `printf` calls: the printed line is modelled by its content (`Report`), not its text.
- `calloc`/`free` and the fixed sizes 30 and 24: lengths are those of the sequences given.
- `genTangSpaceDefault` and the `mikktspace.h` interface tables: the generator is not part of this model; its calls are the input of `Run`.
- Floating-point semantics of attributes and tangents: they are only copied, so they are an opaque type.
- ObjLoader.Load: takes lines with all nine integers converted; a line on which `sscanf` stops early leaves slots of `v` indeterminate, which `ScanSlot` describes but the face table does not model.
- MeshQuery.GetNumFaces: the conversion of the `size_t` count to `int` is not modelled; counts are unbounded.
- ResultSink.SetTSpaceBasic: the counter is unbounded, so overflow of the `static int` after INT_MAX calls is not modelled; the sign is a real, so NaN or infinite signs from the basic form are not represented.
- `%d` conversions of out-of-range integers (undefined in C) are not modelled: records hold unbounded integers.
- Range checks with `OutOfRange`/`MalformedMesh` errors: the program performs none, so out-of-bounds access is excluded by `requires` and well-formedness is the predicate `Mesh.Valid`, characterised by `LoadValidIff`.
