/**
 * The 3x3 linear system of the triangle test and its closed-form solution by
 * Cramer's rule, with the cached cofactors of src/scene/triangle.cpp:78-116.
 *
 * With the columns `v0 - v1`, `v0 - v2` and the ray direction `D`, and the
 * right-hand side `v0 - E`, the system reads
 *
 *     | a d g |   | beta  |   | j |
 *     | b e h | * | gamma | = | k |
 *     | c f i |   | t     |   | l |
 *
 * which is `E + t * D == v0 + beta * (v1 - v0) + gamma * (v2 - v0)`.
 */
module Cramer {
  import opened Vectors

  /** The twelve scalars `a` .. `l` of the system. */
  datatype Coefficients = Coefficients(
    a: real, b: real, c: real,
    d: real, e: real, f: real,
    g: real, h: real, i: real,
    j: real, k: real, l: real)

  /** The unknowns of the system. */
  datatype Solution = Solution(beta: real, gamma: real, t: real)

  /** The system for vertices `p0`, `p1`, `p2` and the ray `eye + t * dir`. */
  function Setup(p0: Vec3, p1: Vec3, p2: Vec3, eye: Vec3, dir: Vec3): Coefficients {
    Coefficients(
      p0.x - p1.x, p0.y - p1.y, p0.z - p1.z,
      p0.x - p2.x, p0.y - p2.y, p0.z - p2.z,
      dir.x, dir.y, dir.z,
      p0.x - eye.x, p0.y - eye.y, p0.z - eye.z)
  }

  /** `sol` solves the system. */
  predicate Satisfies(s: Coefficients, sol: Solution) {
    && s.a * sol.beta + s.d * sol.gamma + s.g * sol.t == s.j
    && s.b * sol.beta + s.e * sol.gamma + s.h * sol.t == s.k
    && s.c * sol.beta + s.f * sol.gamma + s.i * sol.t == s.l
  }

  /** `M`, computed from the cached cofactors `ei_hf`, `gf_di`, `dh_eg`. */
  function Det(s: Coefficients): real {
    var eiHf := s.e * s.i - s.h * s.f;
    var gfDi := s.g * s.f - s.d * s.i;
    var dhEg := s.d * s.h - s.e * s.g;
    s.a * eiHf + s.b * gfDi + s.c * dhEg
  }

  /** The numerator of `beta`. */
  function BetaNumerator(s: Coefficients): real {
    var eiHf := s.e * s.i - s.h * s.f;
    var gfDi := s.g * s.f - s.d * s.i;
    var dhEg := s.d * s.h - s.e * s.g;
    s.j * eiHf + s.k * gfDi + s.l * dhEg
  }

  /** The numerator of `gamma`, from the cached `ak_jb`, `jc_al`, `bl_kc`. */
  function GammaNumerator(s: Coefficients): real {
    var akJb := s.a * s.k - s.j * s.b;
    var jcAl := s.j * s.c - s.a * s.l;
    var blKc := s.b * s.l - s.k * s.c;
    s.i * akJb + s.h * jcAl + s.g * blKc
  }

  /** The numerator of `t`, from the same three cached products. */
  function TNumerator(s: Coefficients): real {
    var akJb := s.a * s.k - s.j * s.b;
    var jcAl := s.j * s.c - s.a * s.l;
    var blKc := s.b * s.l - s.k * s.c;
    -(s.f * akJb + s.e * jcAl + s.d * blKc)
  }

  /** The three quotients; the source divides by `M` without testing it. */
  function Solve(s: Coefficients): Solution
    requires Det(s) != 0.0
  {
    Solution(BetaNumerator(s) / Det(s), GammaNumerator(s) / Det(s), TNumerator(s) / Det(s))
  }

  /** `M` is the determinant of the system: the triple product of its three columns. */
  lemma DetIsTripleProduct(p0: Vec3, p1: Vec3, p2: Vec3, eye: Vec3, dir: Vec3)
    ensures Det(Setup(p0, p1, p2, eye, dir)) == Dot(Sub(p0, p1), Cross(Sub(p0, p2), dir))
  {
  }

  /** The row identities of `NumeratorIdentities`, on the twelve scalars and the four quotients' terms. */
  lemma RowIdentities(a: real, b: real, c: real, d: real, e: real, f: real,
                      g: real, h: real, i: real, j: real, k: real, l: real,
                      m: real, nb: real, ng: real, nt: real)
    requires m == a * (e * i - h * f) + b * (g * f - d * i) + c * (d * h - e * g)
    requires nb == j * (e * i - h * f) + k * (g * f - d * i) + l * (d * h - e * g)
    requires ng == i * (a * k - j * b) + h * (j * c - a * l) + g * (b * l - k * c)
    requires nt == -(f * (a * k - j * b) + e * (j * c - a * l) + d * (b * l - k * c))
    ensures a * nb + d * ng + g * nt == j * m
    ensures b * nb + e * ng + h * nt == k * m
    ensures c * nb + f * ng + i * nt == l * m
  {
  }

  /** Each row of the matrix, applied to the three numerators, gives `M` times its right-hand side. */
  lemma NumeratorIdentities(s: Coefficients)
    ensures s.a * BetaNumerator(s) + s.d * GammaNumerator(s) + s.g * TNumerator(s) == s.j * Det(s)
    ensures s.b * BetaNumerator(s) + s.e * GammaNumerator(s) + s.h * TNumerator(s) == s.k * Det(s)
    ensures s.c * BetaNumerator(s) + s.f * GammaNumerator(s) + s.i * TNumerator(s) == s.l * Det(s)
  {
    RowIdentities(s.a, s.b, s.c, s.d, s.e, s.f, s.g, s.h, s.i, s.j, s.k, s.l,
                  Det(s), BetaNumerator(s), GammaNumerator(s), TNumerator(s));
  }

  /** Dividing one row identity `p*nb + q*ng + r*nt == rhs*m` through by `m != 0`. */
  lemma DivideRow(p: real, q: real, r: real, nb: real, ng: real, nt: real, m: real, rhs: real)
    requires m != 0.0
    requires p * nb + q * ng + r * nt == rhs * m
    ensures p * (nb / m) + q * (ng / m) + r * (nt / m) == rhs
  {
    var x, y, z := nb / m, ng / m, nt / m;
    assert nb == x * m && ng == y * m && nt == z * m;
    assert (p * x + q * y + r * z - rhs) * m == 0.0;
  }

  /** Cramer's rule: with `M != 0` the computed `(beta, gamma, t)` solve the system. */
  lemma SolveSatisfies(s: Coefficients)
    requires Det(s) != 0.0
    ensures Satisfies(s, Solve(s))
  {
    NumeratorIdentities(s);
    var nb, ng, nt, m := BetaNumerator(s), GammaNumerator(s), TNumerator(s), Det(s);
    assert Solve(s) == Solution(nb / m, ng / m, nt / m);
    DivideRow(s.a, s.d, s.g, nb, ng, nt, m, s.j);
    DivideRow(s.b, s.e, s.h, nb, ng, nt, m, s.k);
    DivideRow(s.c, s.f, s.i, nb, ng, nt, m, s.l);
  }

  /**
   * When the right-hand side is the matrix applied to `(beta, gamma, t)`, each
   * numerator is `M` times the matching unknown (on the scalars themselves).
   */
  lemma NumeratorsOfProduct(a: real, b: real, c: real, d: real, e: real, f: real,
                            g: real, h: real, i: real, j: real, k: real, l: real,
                            beta: real, gamma: real, t: real, m: real, nb: real, ng: real, nt: real)
    requires j == a * beta + d * gamma + g * t
    requires k == b * beta + e * gamma + h * t
    requires l == c * beta + f * gamma + i * t
    requires m == a * (e * i - h * f) + b * (g * f - d * i) + c * (d * h - e * g)
    requires nb == j * (e * i - h * f) + k * (g * f - d * i) + l * (d * h - e * g)
    requires ng == i * (a * k - j * b) + h * (j * c - a * l) + g * (b * l - k * c)
    requires nt == -(f * (a * k - j * b) + e * (j * c - a * l) + d * (b * l - k * c))
    ensures nb == m * beta && ng == m * gamma && nt == m * t
  {
  }

  /** For a solution `sol` of the system, each numerator is `M` times the matching unknown. */
  lemma NumeratorsOfSolution(s: Coefficients, sol: Solution)
    requires Satisfies(s, sol)
    ensures BetaNumerator(s) == Det(s) * sol.beta
    ensures GammaNumerator(s) == Det(s) * sol.gamma
    ensures TNumerator(s) == Det(s) * sol.t
  {
    NumeratorsOfProduct(s.a, s.b, s.c, s.d, s.e, s.f, s.g, s.h, s.i, s.j, s.k, s.l,
                        sol.beta, sol.gamma, sol.t, Det(s), BetaNumerator(s), GammaNumerator(s), TNumerator(s));
  }

  /** With `M != 0` the system has no other solution. */
  lemma SolveUnique(s: Coefficients, sol: Solution)
    requires Det(s) != 0.0
    requires Satisfies(s, sol)
    ensures sol == Solve(s)
  {
    NumeratorsOfSolution(s, sol);
  }

  /** The degenerate case on the scalars themselves: every column in the span of the first two. */
  lemma CoplanarScalars(a: real, b: real, c: real, d: real, e: real, f: real,
                        g: real, h: real, i: real, j: real, k: real, l: real,
                        p: real, q: real, x: real, y: real, m: real, nb: real, ng: real, nt: real)
    requires g == p * a + q * d && h == p * b + q * e && i == p * c + q * f
    requires j == x * a + y * d && k == x * b + y * e && l == x * c + y * f
    requires m == a * (e * i - h * f) + b * (g * f - d * i) + c * (d * h - e * g)
    requires nb == j * (e * i - h * f) + k * (g * f - d * i) + l * (d * h - e * g)
    requires ng == i * (a * k - j * b) + h * (j * c - a * l) + g * (b * l - k * c)
    requires nt == -(f * (a * k - j * b) + e * (j * c - a * l) + d * (b * l - k * c))
    ensures m == 0.0 && nb == 0.0 && ng == 0.0 && nt == 0.0
  {
  }

  /**
   * A ray lying in the triangle's plane (its direction and `v0 - E` both in the
   * span of the two edges) makes `M` and all three numerators zero, so the
   * source's quotients are `0 / 0`.
   */
  lemma CoplanarRayIsDegenerate(s: Coefficients, p: real, q: real, x: real, y: real)
    requires s.g == p * s.a + q * s.d && s.h == p * s.b + q * s.e && s.i == p * s.c + q * s.f
    requires s.j == x * s.a + y * s.d && s.k == x * s.b + y * s.e && s.l == x * s.c + y * s.f
    ensures Det(s) == 0.0
    ensures BetaNumerator(s) == 0.0 && GammaNumerator(s) == 0.0 && TNumerator(s) == 0.0
  {
    CoplanarScalars(s.a, s.b, s.c, s.d, s.e, s.f, s.g, s.h, s.i, s.j, s.k, s.l, p, q, x, y,
                    Det(s), BetaNumerator(s), GammaNumerator(s), TNumerator(s));
  }
}
