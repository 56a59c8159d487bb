/**
 * Barycentric weights `(1 - beta - gamma, beta, gamma)` and the blends the
 * intersection code builds with them for every per-vertex quantity.
 */
module Interpolation {
  import opened Vectors

  /** The region a candidate must fall in to pass the gamma and beta tests. */
  predicate InTriangle(beta: real, gamma: real) {
    0.0 <= gamma <= 1.0 && 0.0 <= beta <= 1.0 - gamma
  }

  /** The weight of the first vertex. */
  function Weight0(beta: real, gamma: real): real {
    1.0 - beta - gamma
  }

  /** The two range tests accept exactly the textbook barycentric region. */
  lemma InTriangleIffNonnegativeWeights(beta: real, gamma: real)
    ensures InTriangle(beta, gamma) <==> 0.0 <= Weight0(beta, gamma) && 0.0 <= beta && 0.0 <= gamma
  {
  }

  /** Inside the region the three weights each lie in [0, 1] and sum to 1. */
  lemma WeightsPartitionUnity(beta: real, gamma: real)
    requires InTriangle(beta, gamma)
    ensures 0.0 <= Weight0(beta, gamma) <= 1.0
    ensures 0.0 <= beta <= 1.0 && 0.0 <= gamma <= 1.0
    ensures Weight0(beta, gamma) + beta + gamma == 1.0
  {
  }

  /** `a0 * (1 - beta - gamma) + a1 * beta + a2 * gamma` */
  function Blend(a0: real, a1: real, a2: real, beta: real, gamma: real): real {
    a0 * Weight0(beta, gamma) + a1 * beta + a2 * gamma
  }

  function Min3(a0: real, a1: real, a2: real): real {
    if a0 <= a1 && a0 <= a2 then a0 else if a1 <= a2 then a1 else a2
  }

  function Max3(a0: real, a1: real, a2: real): real {
    if a0 >= a1 && a0 >= a2 then a0 else if a1 >= a2 then a1 else a2
  }

  /** `x` lies between the least and the greatest of the three vertex values. */
  predicate Between(x: real, a0: real, a1: real, a2: real) {
    Min3(a0, a1, a2) <= x <= Max3(a0, a1, a2)
  }

  /** A product of two non-negative reals is non-negative. */
  lemma MulNonnegative(x: real, y: real)
    requires 0.0 <= x && 0.0 <= y
    ensures 0.0 <= x * y
  {
  }

  /** Inside the triangle, a blend is a convex combination of the three values. */
  lemma BlendWithinRange(a0: real, a1: real, a2: real, beta: real, gamma: real)
    requires InTriangle(beta, gamma)
    ensures Between(Blend(a0, a1, a2, beta, gamma), a0, a1, a2)
  {
    var w0 := Weight0(beta, gamma);
    var lo, hi := Min3(a0, a1, a2), Max3(a0, a1, a2);
    MulNonnegative(a0 - lo, w0);
    MulNonnegative(a1 - lo, beta);
    MulNonnegative(a2 - lo, gamma);
    MulNonnegative(hi - a0, w0);
    MulNonnegative(hi - a1, beta);
    MulNonnegative(hi - a2, gamma);
    assert lo * w0 + lo * beta + lo * gamma == lo * (w0 + beta + gamma);
    assert hi * w0 + hi * beta + hi * gamma == hi * (w0 + beta + gamma);
  }

  /** Blending three equal values gives that value back, for any weights. */
  lemma BlendOfEqual(a: real, beta: real, gamma: real)
    ensures Blend(a, a, a, beta, gamma) == a
  {
  }

  function BlendVec3(p0: Vec3, p1: Vec3, p2: Vec3, beta: real, gamma: real): Vec3 {
    Vec3(Blend(p0.x, p1.x, p2.x, beta, gamma),
         Blend(p0.y, p1.y, p2.y, beta, gamma),
         Blend(p0.z, p1.z, p2.z, beta, gamma))
  }

  /** `t0 * (1 - beta - gamma) + t1 * beta + t2 * gamma` on texture coordinates, as the source writes it */
  function BlendVec2(t0: Vec2, t1: Vec2, t2: Vec2, beta: real, gamma: real): Vec2 {
    Add2(Add2(Scale2(t0, Weight0(beta, gamma)), Scale2(t1, beta)), Scale2(t2, gamma))
  }

  function BlendColor(c0: Color3, c1: Color3, c2: Color3, beta: real, gamma: real): Color3 {
    Color3(Blend(c0.r, c1.r, c2.r, beta, gamma),
           Blend(c0.g, c1.g, c2.g, beta, gamma),
           Blend(c0.b, c1.b, c2.b, beta, gamma))
  }

  /** Every channel of `c` lies between the corresponding channels of the three colours. */
  predicate ColorBetween(c: Color3, c0: Color3, c1: Color3, c2: Color3) {
    Between(c.r, c0.r, c1.r, c2.r) && Between(c.g, c0.g, c1.g, c2.g) && Between(c.b, c0.b, c1.b, c2.b)
  }

  /** Inside the triangle, each channel of a blended colour is a convex combination. */
  lemma BlendColorWithinRange(c0: Color3, c1: Color3, c2: Color3, beta: real, gamma: real)
    requires InTriangle(beta, gamma)
    ensures ColorBetween(BlendColor(c0, c1, c2, beta, gamma), c0, c1, c2)
  {
    BlendWithinRange(c0.r, c1.r, c2.r, beta, gamma);
    BlendWithinRange(c0.g, c1.g, c2.g, beta, gamma);
    BlendWithinRange(c0.b, c1.b, c2.b, beta, gamma);
  }

  /** Three equal colours blend to that colour. */
  lemma BlendColorOfEqual(c: Color3, beta: real, gamma: real)
    ensures BlendColor(c, c, c, beta, gamma) == c
  {
    BlendOfEqual(c.r, beta, gamma);
    BlendOfEqual(c.g, beta, gamma);
    BlendOfEqual(c.b, beta, gamma);
  }
}
