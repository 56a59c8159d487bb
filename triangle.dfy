/**
 * The ray-triangle intersection test of src/scene/triangle.cpp:68-200: solve
 * the ray/plane system in object space, reject a candidate that is too close,
 * or whose gamma or beta falls outside the triangle, and otherwise fill a hit
 * record whose material channels and texture colour are interpolated by the
 * barycentric weights `(1 - beta - gamma, beta, gamma)`.
 */
module TriangleIntersection {
  import opened Numeric
  import opened Vectors
  import opened Interpolation
  import Cramer

  /**
   * A vertex material. The texture is what the material's loader decoded:
   * `textureWidth`/`textureHeight` are what `get_texture_size` reports and
   * `texturePixel` is `get_texture_pixel`.
   */
  datatype Material = Material(
    ambient: Color3,
    diffuse: Color3,
    specular: Color3,
    refractiveIndex: real,
    textureFilename: string,
    textureWidth: int,
    textureHeight: int,
    texturePixel: (int, int) -> Color3)

  datatype Vertex = Vertex(position: Vec3, normal: Vec3, texCoord: Vec2, material: Material)

  /**
   * The triangle's transforms, from a matrix library that is not modelled:
   * `toLocalPoint`/`toLocalVector` are `invMat.transform_point` and
   * `invMat.transform_vector`, `toWorldPoint` is `transform_point` of the
   * matrix `make_transformation_matrix` builds, and `toWorldNormal` is
   * `normalize(normMat * normalize(n))`.
   */
  datatype Placement = Placement(
    toLocalPoint: Vec3 -> Vec3,
    toLocalVector: Vec3 -> Vec3,
    toWorldPoint: Vec3 -> Vec3,
    toWorldNormal: Vec3 -> Vec3)

  datatype Triangle = Triangle(v0: Vertex, v1: Vertex, v2: Vertex, placement: Placement)

  /** A ray `e + t * d` in world space. */
  datatype Ray = Ray(e: Vec3, d: Vec3)

  /**
   * The hit record. `Miss` is a record in which only `intersect = false` was
   * set; `Hit` is one with `intersect = true` and every other field filled.
   */
  datatype Intersection =
    | Miss
    | Hit(position: Vec3, normal: Vec3, ambient: Color3, diffuse: Color3,
          specular: Color3, refractiveIndex: real, texture: Color3)

  /** Which test, taken in the source's order, decided the candidate. */
  datatype Verdict = TooClose | OutsideGamma | OutsideBeta | Inside

  /** The ray's eye point and direction, in object space. */
  function LocalEye(tri: Triangle, ray: Ray): Vec3 {
    tri.placement.toLocalPoint(ray.e)
  }

  function LocalDir(tri: Triangle, ray: Ray): Vec3 {
    tri.placement.toLocalVector(ray.d)
  }

  function System(tri: Triangle, ray: Ray): Cramer.Coefficients {
    Cramer.Setup(tri.v0.position, tri.v1.position, tri.v2.position, LocalEye(tri, ray), LocalDir(tri, ray))
  }

  /** The determinant `M` is non-zero; the source divides by it unconditionally. */
  predicate Solvable(tri: Triangle, ray: Ray) {
    Cramer.Det(System(tri, ray)) != 0.0
  }

  /** The candidate `(beta, gamma, t)` before any test. */
  function Candidate(tri: Triangle, ray: Ray): Cramer.Solution
    requires Solvable(tri, ray)
  {
    Cramer.Solve(System(tri, ray))
  }

  /** The three rejection tests, taken in order: `t`, then `gamma`, then `beta`. */
  function Classify(sol: Cramer.Solution, eps: real): (v: Verdict)
    ensures v == TooClose <==> sol.t < eps
    ensures v == OutsideGamma <==> eps <= sol.t && !(0.0 <= sol.gamma <= 1.0)
    ensures v == OutsideBeta <==> eps <= sol.t && 0.0 <= sol.gamma <= 1.0 && !(0.0 <= sol.beta <= 1.0 - sol.gamma)
    ensures v == Inside <==> eps <= sol.t && InTriangle(sol.beta, sol.gamma)
  {
    if sol.t < eps then TooClose
    else if sol.gamma < 0.0 || sol.gamma > 1.0 then OutsideGamma
    else if sol.beta < 0.0 || sol.beta > 1.0 - sol.gamma then OutsideBeta
    else Inside
  }

  /** No vertex material names a texture file. */
  predicate Untextured(tri: Triangle) {
    && tri.v0.material.textureFilename == []
    && tri.v1.material.textureFilename == []
    && tri.v2.material.textureFilename == []
  }

  /**
   * The interpolated texture coordinate, wrapped to its fractional part: each
   * component lies in [0, 1) and differs from the interpolated one by an integer.
   */
  function WrappedTexCoord(tri: Triangle, beta: real, gamma: real): (uv: Vec2)
    ensures 0.0 <= uv.x < 1.0 && 0.0 <= uv.y < 1.0
    ensures (BlendVec2(tri.v0.texCoord, tri.v1.texCoord, tri.v2.texCoord, beta, gamma).x - uv.x).Floor as real
            == BlendVec2(tri.v0.texCoord, tri.v1.texCoord, tri.v2.texCoord, beta, gamma).x - uv.x
    ensures (BlendVec2(tri.v0.texCoord, tri.v1.texCoord, tri.v2.texCoord, beta, gamma).y - uv.y).Floor as real
            == BlendVec2(tri.v0.texCoord, tri.v1.texCoord, tri.v2.texCoord, beta, gamma).y - uv.y
  {
    var tex := BlendVec2(tri.v0.texCoord, tri.v1.texCoord, tri.v2.texCoord, beta, gamma);
    Vec2(Fract(tex.x), Fract(tex.y))
  }

  /** A coordinate in [0, 1) scaled by a positive size stays in [0, size). */
  lemma ScaledCoordinateBelowSize(u: real, size: real)
    requires 0.0 <= u < 1.0 && 0.0 < size
    ensures 0.0 <= u * size < size
  {
    MulNonnegative(u, size);
    assert size - u * size == (1.0 - u) * size;
    assert 0.0 < (1.0 - u) * size;
  }

  /** `(int)(u * (real_t)size)`: for a wrapped `u` and a positive size, a valid pixel index. */
  function PixelIndex(u: real, size: int): (n: int)
    ensures 0.0 <= u < 1.0 && 0 < size ==> 0 <= n <= size - 1
  {
    var p := u * size as real;
    var n := Truncate(p);
    assert 0.0 <= u < 1.0 && 0 < size ==> 0 <= n <= size - 1 by {
      if 0.0 <= u < 1.0 && 0 < size {
        ScaledCoordinateBelowSize(u, size as real);
        assert 0.0 <= p < size as real;
        assert n as real <= p;
      }
    }
    n
  }

  /** Both pixel indices of a texture of positive size at `uv` lie inside the texture. */
  predicate PixelInRange(m: Material, uv: Vec2) {
    && (0 < m.textureWidth ==> 0 <= PixelIndex(uv.x, m.textureWidth) <= m.textureWidth - 1)
    && (0 < m.textureHeight ==> 0 <= PixelIndex(uv.y, m.textureHeight) <= m.textureHeight - 1)
  }

  /** The material's texture sample at the wrapped coordinate `uv`. */
  function Sample(m: Material, uv: Vec2): Color3 {
    m.texturePixel(PixelIndex(uv.x, m.textureWidth), PixelIndex(uv.y, m.textureHeight))
  }

  /**
   * The texture colour at `(beta, gamma)`: white when no vertex has a texture,
   * otherwise the three vertex samples accumulated onto black, each scaled by
   * its vertex's weight.
   */
  function TextureAt(tri: Triangle, beta: real, gamma: real): Color3 {
    if Untextured(tri) then White
    else
      var uv := WrappedTexCoord(tri, beta, gamma);
      var color := ColorAdd(Black, ColorScale(Sample(tri.v0.material, uv), 1.0 - beta - gamma));
      var color := ColorAdd(color, ColorScale(Sample(tri.v1.material, uv), beta));
      ColorAdd(color, ColorScale(Sample(tri.v2.material, uv), gamma))
  }

  /**
   * The intersection test. A hit is reported exactly when the candidate lies
   * at least `eps` along the ray and inside the triangle.
   */
  function Intersect(tri: Triangle, ray: Ray, eps: real): (r: Intersection)
    requires 0.0 < eps
    requires Solvable(tri, ray)
    ensures r.Hit? <==> eps <= Candidate(tri, ray).t && InTriangle(Candidate(tri, ray).beta, Candidate(tri, ray).gamma)
  {
    var sol := Candidate(tri, ray);
    if Classify(sol, eps) != Inside then Miss
    else
      var m0, m1, m2 := tri.v0.material, tri.v1.material, tri.v2.material;
      var localPos := Add(LocalEye(tri, ray), Scale(LocalDir(tri, ray), sol.t));
      var localNorm := Add(Add(tri.v0.normal, tri.v1.normal), tri.v2.normal);
      Hit(
        position := tri.placement.toWorldPoint(localPos),
        normal := tri.placement.toWorldNormal(localNorm),
        ambient := BlendColor(m0.ambient, m1.ambient, m2.ambient, sol.beta, sol.gamma),
        diffuse := BlendColor(m0.diffuse, m1.diffuse, m2.diffuse, sol.beta, sol.gamma),
        specular := BlendColor(m0.specular, m1.specular, m2.specular, sol.beta, sol.gamma),
        refractiveIndex := Blend(m0.refractiveIndex, m1.refractiveIndex, m2.refractiveIndex, sol.beta, sol.gamma),
        texture := TextureAt(tri, sol.beta, sol.gamma))
  }

  /**
   * The point `E + t * D` the source computes lies on the triangle's plane: it
   * is the blend of the three vertex positions by the barycentric weights.
   */
  lemma CandidateOnTrianglePlane(tri: Triangle, ray: Ray)
    requires Solvable(tri, ray)
    ensures Add(LocalEye(tri, ray), Scale(LocalDir(tri, ray), Candidate(tri, ray).t))
            == BlendVec3(tri.v0.position, tri.v1.position, tri.v2.position,
                         Candidate(tri, ray).beta, Candidate(tri, ray).gamma)
  {
    Cramer.SolveSatisfies(System(tri, ray));
    SolutionOnPlane(tri.v0.position, tri.v1.position, tri.v2.position, LocalEye(tri, ray), LocalDir(tri, ray),
                    Candidate(tri, ray));
  }

  /** Any solution of the system for a triangle and a ray gives a point on the triangle's plane. */
  lemma SolutionOnPlane(p0: Vec3, p1: Vec3, p2: Vec3, eye: Vec3, dir: Vec3, sol: Cramer.Solution)
    requires Cramer.Satisfies(Cramer.Setup(p0, p1, p2, eye, dir), sol)
    ensures Add(eye, Scale(dir, sol.t)) == BlendVec3(p0, p1, p2, sol.beta, sol.gamma)
  {
    CoordinateOnPlane(p0.x, p1.x, p2.x, eye.x, dir.x, sol.beta, sol.gamma, sol.t);
    CoordinateOnPlane(p0.y, p1.y, p2.y, eye.y, dir.y, sol.beta, sol.gamma, sol.t);
    CoordinateOnPlane(p0.z, p1.z, p2.z, eye.z, dir.z, sol.beta, sol.gamma, sol.t);
  }

  /** One coordinate of `SolutionOnPlane`: a row of the system, read as a point. */
  lemma CoordinateOnPlane(x0: real, x1: real, x2: real, ex: real, dx: real, beta: real, gamma: real, t: real)
    requires (x0 - x1) * beta + (x0 - x2) * gamma + dx * t == x0 - ex
    ensures ex + dx * t == Blend(x0, x1, x2, beta, gamma)
  {
  }

  /** A hit lies in front of the eye, and its weights partition unity within [0, 1]. */
  lemma HitWeights(tri: Triangle, ray: Ray, eps: real)
    requires 0.0 < eps
    requires Solvable(tri, ray)
    requires eps <= Candidate(tri, ray).t && InTriangle(Candidate(tri, ray).beta, Candidate(tri, ray).gamma)
    ensures 0.0 < eps <= Candidate(tri, ray).t
    ensures var sol := Candidate(tri, ray);
      && 0.0 <= Weight0(sol.beta, sol.gamma) <= 1.0
      && 0.0 <= sol.beta <= 1.0 && 0.0 <= sol.gamma <= 1.0
      && Weight0(sol.beta, sol.gamma) + sol.beta + sol.gamma == 1.0
  {
    WeightsPartitionUnity(Candidate(tri, ray).beta, Candidate(tri, ray).gamma);
  }

  /** A hit's world position is the world image of the barycentric point on the triangle. */
  lemma HitPosition(tri: Triangle, ray: Ray, eps: real)
    requires 0.0 < eps
    requires Solvable(tri, ray)
    requires eps <= Candidate(tri, ray).t && InTriangle(Candidate(tri, ray).beta, Candidate(tri, ray).gamma)
    ensures Intersect(tri, ray, eps).position
            == tri.placement.toWorldPoint(BlendVec3(tri.v0.position, tri.v1.position, tri.v2.position,
                                                    Candidate(tri, ray).beta, Candidate(tri, ray).gamma))
  {
    CandidateOnTrianglePlane(tri, ray);
  }

  /**
   * The normal of a hit is the sum of the three vertex normals, unweighted,
   * taken to world space: it is the same for every ray that hits the triangle.
   */
  lemma HitNormalIndependentOfRay(tri: Triangle, ray1: Ray, ray2: Ray, eps: real)
    requires 0.0 < eps
    requires Solvable(tri, ray1) && Solvable(tri, ray2)
    requires Intersect(tri, ray1, eps).Hit? && Intersect(tri, ray2, eps).Hit?
    ensures Intersect(tri, ray1, eps).normal == Intersect(tri, ray2, eps).normal
  {
  }

  /**
   * Every interpolated material channel of a hit lies between the least and the
   * greatest of the three vertex values.
   */
  lemma HitChannelsInRange(tri: Triangle, ray: Ray, eps: real)
    requires 0.0 < eps
    requires Solvable(tri, ray)
    requires eps <= Candidate(tri, ray).t && InTriangle(Candidate(tri, ray).beta, Candidate(tri, ray).gamma)
    ensures var r, m0, m1, m2 := Intersect(tri, ray, eps), tri.v0.material, tri.v1.material, tri.v2.material;
      && ColorBetween(r.ambient, m0.ambient, m1.ambient, m2.ambient)
      && ColorBetween(r.diffuse, m0.diffuse, m1.diffuse, m2.diffuse)
      && ColorBetween(r.specular, m0.specular, m1.specular, m2.specular)
      && Between(r.refractiveIndex, m0.refractiveIndex, m1.refractiveIndex, m2.refractiveIndex)
  {
    var sol := Candidate(tri, ray);
    var m0, m1, m2 := tri.v0.material, tri.v1.material, tri.v2.material;
    BlendColorWithinRange(m0.ambient, m1.ambient, m2.ambient, sol.beta, sol.gamma);
    BlendColorWithinRange(m0.diffuse, m1.diffuse, m2.diffuse, sol.beta, sol.gamma);
    BlendColorWithinRange(m0.specular, m1.specular, m2.specular, sol.beta, sol.gamma);
    BlendWithinRange(m0.refractiveIndex, m1.refractiveIndex, m2.refractiveIndex, sol.beta, sol.gamma);
  }

  /** A channel on which the three vertex materials agree is reported unchanged by a hit. */
  lemma HitChannelsUniform(tri: Triangle, ray: Ray, eps: real)
    requires 0.0 < eps
    requires Solvable(tri, ray)
    requires eps <= Candidate(tri, ray).t && InTriangle(Candidate(tri, ray).beta, Candidate(tri, ray).gamma)
    ensures var r, m0, m1, m2 := Intersect(tri, ray, eps), tri.v0.material, tri.v1.material, tri.v2.material;
      && (m0.ambient == m1.ambient == m2.ambient ==> r.ambient == m0.ambient)
      && (m0.diffuse == m1.diffuse == m2.diffuse ==> r.diffuse == m0.diffuse)
      && (m0.specular == m1.specular == m2.specular ==> r.specular == m0.specular)
      && (m0.refractiveIndex == m1.refractiveIndex == m2.refractiveIndex ==> r.refractiveIndex == m0.refractiveIndex)
  {
    var sol := Candidate(tri, ray);
    var m0 := tri.v0.material;
    BlendColorOfEqual(m0.ambient, sol.beta, sol.gamma);
    BlendColorOfEqual(m0.diffuse, sol.beta, sol.gamma);
    BlendColorOfEqual(m0.specular, sol.beta, sol.gamma);
    BlendOfEqual(m0.refractiveIndex, sol.beta, sol.gamma);
  }

  /** A hit on a triangle whose vertex materials have no texture file has a white texture. */
  lemma UntexturedHitIsWhite(tri: Triangle, ray: Ray, eps: real)
    requires 0.0 < eps
    requires Solvable(tri, ray)
    requires Untextured(tri)
    ensures Intersect(tri, ray, eps).Hit? ==> Intersect(tri, ray, eps).texture == White
  {
  }

  /** Accumulating the three weighted samples onto black gives their barycentric blend. */
  lemma AccumulatedTextureIsBlend(tri: Triangle, beta: real, gamma: real)
    requires !Untextured(tri)
    ensures var uv := WrappedTexCoord(tri, beta, gamma);
      TextureAt(tri, beta, gamma)
      == BlendColor(Sample(tri.v0.material, uv), Sample(tri.v1.material, uv), Sample(tri.v2.material, uv), beta, gamma)
  {
  }

  /**
   * On a hit with some texture, the texture colour is the barycentric blend
   * of the three vertex samples, each taken at an in-range pixel of the wrapped
   * coordinate when its texture has a positive size, and every channel of it
   * lies between those of the samples.
   */
  lemma TexturedHitIsBlend(tri: Triangle, ray: Ray, eps: real)
    requires 0.0 < eps
    requires Solvable(tri, ray)
    requires !Untextured(tri)
    requires eps <= Candidate(tri, ray).t && InTriangle(Candidate(tri, ray).beta, Candidate(tri, ray).gamma)
    ensures var sol := Candidate(tri, ray);
      var uv := WrappedTexCoord(tri, sol.beta, sol.gamma);
      var s0, s1, s2 := Sample(tri.v0.material, uv), Sample(tri.v1.material, uv), Sample(tri.v2.material, uv);
      && PixelInRange(tri.v0.material, uv) && PixelInRange(tri.v1.material, uv) && PixelInRange(tri.v2.material, uv)
      && Intersect(tri, ray, eps).texture == BlendColor(s0, s1, s2, sol.beta, sol.gamma)
      && ColorBetween(Intersect(tri, ray, eps).texture, s0, s1, s2)
  {
    var sol := Candidate(tri, ray);
    var uv := WrappedTexCoord(tri, sol.beta, sol.gamma);
    AccumulatedTextureIsBlend(tri, sol.beta, sol.gamma);
    BlendColorWithinRange(Sample(tri.v0.material, uv), Sample(tri.v1.material, uv), Sample(tri.v2.material, uv),
                          sol.beta, sol.gamma);
  }
}
