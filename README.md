# Ray–triangle intersection of a global-illumination renderer, in Dafny

This project models the closed-form ray–triangle intersection test of the
renderer's geometric primitives (`src/scene/triangle.cpp`, lines 68-200),
over exact `real` arithmetic as an idealisation of `real_t`, and proves what
the test promises:

* **Solve.** The ray `E + t·D` is met with the plane
  `v0 + β(v1−v0) + γ(v2−v0)` by solving a 3×3 linear system with Cramer's
  rule from cached cofactors (`Cramer`). With a non-zero determinant `M`, the
  computed `(β, γ, t)` solve the system, and nothing else does. `M` is the
  triple product of the system's columns. The point `E + t·D` is the
  barycentric blend of the three vertices.
* **Reject.** A candidate is rejected when `t < EPS`, then when `γ ∉ [0, 1]`,
  then when `β ∉ [0, 1−γ]` (`TriangleIntersection.Classify`). A hit is
  reported exactly when all three tests pass, and then the weights
  `(1−β−γ, β, γ)` each lie in [0, 1] and sum to 1.
* **Fill the hit record.** The ambient, diffuse and specular colours and the
  refractive index are blended by those weights. Each channel lies between the
  vertex extremes and equals the common value when the vertices agree. The
  texture colour is white when no vertex material names a texture file.
  Otherwise it is the weighted blend of the three vertex samples, accumulated
  from black and taken at the wrapped coordinate `tex − floor(tex)` ∈ [0, 1).
  That coordinate gives pixel index `(int)(tex·size)` ∈ [0, size−1] for a
  positive size. Both bounds hold over exact reals; "## Left out" names where
  double precision breaks them.

Files, one module each: `numeric.dfy` (fractional part, C++ truncating
cast), `vectors.dfy` (`Vector3`, `Vector2`, `Color3` and their operators),
`interpolation.dfy` (barycentric weights and blends), `cramer.dfy` (the
linear system), `triangle.dfy` (materials, vertices, the hit record and the
test itself).

Modelling choices:

* `EPS` is a parameter `eps` with `0 < eps`.
* The source divides by `M` without testing it (lines 105, 111 and 116). The
  model requires `M ≠ 0` (`Solvable`) and does not model the `M = 0` case; see
  `TriangleIntersection.Intersect` under "## Left out" for what the source then does.
* The source defines this function under the qualifier `Sphere::intersect`,
  but it reads the triangle's `vertices`. It is modelled as the triangle's test.
* The hit record (`Intersection`) is `Miss`, a record in which only
  `intersect = false` was set, or `Hit` with every field the source fills.
  The source never stores `t` in the record. Facts about `t` are therefore
  stated through `Candidate`, the solved `(β, γ, t)`.
* The hit normal is the unweighted sum `n0 + n1 + n2` of the vertex normals,
  normalised and taken to world space (lines 132-133). It is not a
  barycentric interpolation, so it is the same for every hit on the triangle.

## Model

| member | source | states |
|---|---|---|
| Numeric.Fract | src/scene/triangle.cpp:170-171 | the wrapped coordinate `x − floor(x)` lies in [0, 1) and differs from `x` by an integer |
| Numeric.Truncate | src/scene/triangle.cpp:181-182 | the `(int)` cast truncates toward zero: `|n| ≤ |x| < |n| + 1` with the sign of `x` |
| Interpolation.InTriangleIffNonnegativeWeights | src/scene/triangle.cpp:111-118 | the γ and β range tests accept exactly the points whose three weights are non-negative |
| Interpolation.WeightsPartitionUnity | src/scene/triangle.cpp:111-118 | inside the accepted region the weights `(1−β−γ, β, γ)` each lie in [0, 1] and sum to 1 |
| Interpolation.BlendWithinRange | src/scene/triangle.cpp:136-153 | an accepted blend of three values lies between their minimum and maximum |
| Interpolation.BlendOfEqual | src/scene/triangle.cpp:136-153 | three equal values blend to that value |
| Interpolation.BlendColor | src/scene/triangle.cpp:136-148 | no contract of its own: the weighted sum of three colours; `Interpolation.BlendColorWithinRange` and `Interpolation.BlendColorOfEqual` state its properties |
| Interpolation.BlendColorWithinRange | src/scene/triangle.cpp:136-148 | each channel of an accepted colour blend lies between the vertex channels' extremes |
| Interpolation.BlendColorOfEqual | src/scene/triangle.cpp:136-148 | three equal colours blend to that colour |
| Cramer.DetIsTripleProduct | src/scene/triangle.cpp:78-99 | `M` from the cached cofactors is the determinant of the system, `(v0−v1)·((v0−v2)×D)` |
| Cramer.NumeratorIdentities | src/scene/triangle.cpp:94-116 | each matrix row applied to the three numerators gives `M` times that row's right-hand side |
| Cramer.SolveSatisfies | src/scene/triangle.cpp:78-116 | with `M ≠ 0` the computed `(β, γ, t)` satisfy `β(v0−v1) + γ(v0−v2) + tD = v0 − E` componentwise |
| Cramer.SolveUnique | src/scene/triangle.cpp:78-116 | with `M ≠ 0` any solution of the system is the computed one |
| Cramer.Setup | src/scene/triangle.cpp:78-92 | no contract of its own: the twelve scalars `a` .. `l` of the system; what they mean is stated by `Cramer.DetIsTripleProduct` and `Cramer.SolveSatisfies` |
| Cramer.Det | src/scene/triangle.cpp:94-99 | no contract of its own: `M` from the cached cofactors; `Cramer.DetIsTripleProduct` states that it is the system's determinant |
| Cramer.Solve | src/scene/triangle.cpp:101-116 | no contract of its own: the three quotients by `M`; `Cramer.SolveSatisfies` and `Cramer.SolveUnique` state that they are the system's one solution |
| Cramer.CoplanarRayIsDegenerate | src/scene/triangle.cpp:99-116 | for a ray lying in the triangle's plane, `M` and all three numerators are zero, so the source divides 0 by 0 |
| TriangleIntersection.Classify | src/scene/triangle.cpp:107-118 | the tests run in the order t, γ, β: each verdict holds exactly when the earlier tests passed and its own failed; `Inside` exactly when `t ≥ EPS` and the point is in the triangle |
| TriangleIntersection.Intersect | src/scene/triangle.cpp:68-121 | a hit is returned if and only if `t ≥ EPS`, `0 ≤ γ ≤ 1` and `0 ≤ β ≤ 1−γ`; otherwise the record is a miss |
| TriangleIntersection.CandidateOnTrianglePlane | src/scene/triangle.cpp:78-128 | the local point `E + t·D` equals the barycentric blend of the three vertex positions |
| TriangleIntersection.HitWeights | src/scene/triangle.cpp:105-118 | a hit has `t ≥ EPS > 0` and weights in [0, 1] that sum to 1 |
| TriangleIntersection.HitPosition | src/scene/triangle.cpp:127-129 | a hit's position is the world image of the barycentric point on the triangle |
| TriangleIntersection.HitNormalIndependentOfRay | src/scene/triangle.cpp:131-133 | the hit normal comes from the unweighted vertex-normal sum, so every ray that hits gets the same normal |
| TriangleIntersection.HitChannelsInRange | src/scene/triangle.cpp:135-153 | each ambient, diffuse and specular channel and the refractive index of a hit lie between the three vertex values' extremes |
| TriangleIntersection.HitChannelsUniform | src/scene/triangle.cpp:135-153 | a channel on which all three vertex materials agree is that common value in the hit |
| TriangleIntersection.UntexturedHitIsWhite | src/scene/triangle.cpp:155-162 | when no vertex material names a texture file, a hit's texture is exactly white |
| TriangleIntersection.WrappedTexCoord | src/scene/triangle.cpp:165-171 | the interpolated texture coordinate, wrapped, has both components in [0, 1) and differs from the blend by integers |
| TriangleIntersection.PixelIndex | src/scene/triangle.cpp:179-192 | for a wrapped coordinate and a positive size, `(int)(u·size)` lies in [0, size−1] |
| TriangleIntersection.Sample | src/scene/triangle.cpp:179-192 | no contract of its own: a material's pixel at the indices `PixelIndex` gives; `TriangleIntersection.TexturedHitIsBlend` states that the indices are in range |
| TriangleIntersection.TextureAt | src/scene/triangle.cpp:155-196 | no contract of its own: white, or the accumulated samples; `TriangleIntersection.UntexturedHitIsWhite`, `TriangleIntersection.AccumulatedTextureIsBlend` and `TriangleIntersection.TexturedHitIsBlend` state its properties |
| TriangleIntersection.AccumulatedTextureIsBlend | src/scene/triangle.cpp:176-195 | adding the three weighted samples onto black gives `s0(1−β−γ) + s1β + s2γ` |
| TriangleIntersection.TexturedHitIsBlend | src/scene/triangle.cpp:163-196 | on a textured hit every sample index is in range, the texture is the barycentric blend of the three vertex samples, and each channel lies between the samples' extremes |

## Left out

- `Triangle::render` (src/scene/triangle.cpp:24-66): OpenGL immediate-mode drawing is display output.
- The object-space transforms. `invMat.transform_point`, `invMat.transform_vector`, the matrix from `make_transformation_matrix`, `normMat` and `normalize` belong to a matrix library that is not part of this model. They are uninterpreted functions, the fields of `Placement`.
- Texture decoding. `get_texture_size` and `get_texture_pixel` are foreign asset code. They are the given data `textureWidth`, `textureHeight` and `texturePixel` of a `Material`.
- Floating-point rounding, NaN and infinity. The model uses exact reals.
- TriangleIntersection.Intersect: requires `M ≠ 0`, which the source never tests. For a ray lying in the triangle's plane, `M` and all three numerators are 0 in exact arithmetic (`Cramer.CoplanarRayIsDegenerate`). If the rounded `M` and numerators are also exactly 0, then `t`, `gamma` and `beta` are 0/0, which is NaN. Every comparison at lines 107-117 is then false, and the source reports a hit. Its position and its blended ambient, diffuse, specular and refractive-index fields are NaN. Its normal comes from the vertex normals alone (132-133) and is unaffected. An untextured hit's texture is still white (156-161). A textured hit casts `NaN * width` to `int` (181-192), which is undefined behaviour, and then fetches a pixel at an undefined index. When rounding leaves `M` tiny but not zero, the quotients are large finite numbers instead. A ray parallel to the plane but off it gives an infinite `t`. The model describes none of these cases.
- Vertex materials are assumed non-null. The constructor sets all three to null (src/scene/triangle.cpp:16-18), and `render` tests for null (26-28). The intersection test dereferences `vertices[i].material` on every hit without a test (136-192). A hit on a triangle with a null material therefore crashes rather than giving a neutral value. In the model every `Vertex` carries a `Material`.
- Integer overflow of the `(int)` cast is not modelled. Over reals it cannot arise for a wrapped coordinate and an `int` size. It can in the source, in the NaN case of the `TriangleIntersection.Intersect` line above.
- The bounds proved for `Numeric.Fract` and `TriangleIntersection.PixelIndex` hold over exact reals but not in double precision. A blended coordinate `tex.x` in (−2⁻⁵⁴, 0), such as −1e-17, wraps to exactly `1.0` at line 170, since `tex.x + 1` rounds to 1. Line 181 then fetches pixel `width`, one past the last column. Such values arise at an edge where the blended coordinate should be 0. The same holds for `tex.y` and `height`.
- The fields of a `Miss` record other than `intersect`: the source leaves them at their defaults, and the model gives them no values.
- `src/p3/util.hpp`: it holds configuration constants (`MAX_THREADS`, `MAX_DEPTH`, `WATT_BOOST`, photon counts, `DIRECT_SAMPLE_COUNT`) and prototypes for `computeFresnelCoefficient`, `reflect`, `refract` and `montecarlo`. Their bodies are not part of this model. The photon map, the direct-lighting estimator and the recursive integrator are not part of it either.
