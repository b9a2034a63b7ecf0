/** Composing poses and applying them, as the corrections and the field-of-view test do. */
module RigidMotion {
  import opened Voxels
  import opened Poses

  // ---------------------------------------------------------------- the operations

  function Cross(a: Vec, b: Vec): Vec {
    Vec(a.y * b.z - a.z * b.y, a.z * b.x - a.x * b.z, a.x * b.y - a.y * b.x)
  }

  function Plus(a: Vec, b: Vec): Vec {
    Vec(a.x + b.x, a.y + b.y, a.z + b.z)
  }

  function Minus(a: Vec, b: Vec): Vec {
    Vec(a.x - b.x, a.y - b.y, a.z - b.z)
  }

  function Times(k: real, a: Vec): Vec {
    Vec(k * a.x, k * a.y, k * a.z)
  }

  function Squared(a: Vec): real {
    a.x * a.x + a.y * a.y + a.z * a.z
  }

  function Turn(w: real, v: Vec, uv: Vec, uuv: Vec): Vec {
    Plus(v, Times(2.0, Plus(Times(w, uv), uuv)))
  }

  /** v + 2 (w (u x v) + u x (u x v)), with u the quaternion's vector part. */
  function RotateVector(q: Quat, v: Vec): Vec {
    var u := Vec(q.x, q.y, q.z);
    var uv := Cross(u, v);
    Turn(q.w, v, uv, Cross(u, uv))
  }

  function RotateAndTranslate(pose: Pose, v: Vec): Vec {
    Plus(RotateVector(pose.rotation, v), pose.translation)
  }

  /** The Hamilton product. */
  function Multiply(a: Quat, b: Quat): Quat {
    Quat(a.w * b.x + a.x * b.w + a.y * b.z - a.z * b.y,
         a.w * b.y - a.x * b.z + a.y * b.w + a.z * b.x,
         a.w * b.z + a.x * b.y - a.y * b.x + a.z * b.w,
         a.w * b.w - a.x * b.x - a.y * b.y - a.z * b.z)
  }

  function Conjugate(q: Quat): Quat {
    Quat(-q.x, -q.y, -q.z, q.w)
  }

  function ComposePoses(a: Pose, b: Pose): Pose {
    Pose(Plus(RotateVector(a.rotation, b.translation), a.translation), Multiply(a.rotation, b.rotation))
  }

  function Norm(q: Quat): real {
    q.x * q.x + q.y * q.y + q.z * q.z + q.w * q.w
  }

  predicate Unit(q: Quat) {
    Norm(q) == 1.0
  }

  // ---------------------------------------------------------------- quaternion algebra

  function Pure(v: Vec): Quat {
    Quat(v.x, v.y, v.z, 0.0)
  }

  const I := Quat(1.0, 0.0, 0.0, 0.0)
  const J := Quat(0.0, 1.0, 0.0, 0.0)
  const K := Quat(0.0, 0.0, 1.0, 0.0)
  const ONE := Quat(0.0, 0.0, 0.0, 1.0)

  function Add(a: Quat, b: Quat): Quat {
    Quat(a.x + b.x, a.y + b.y, a.z + b.z, a.w + b.w)
  }

  function Scale(k: real, q: Quat): Quat {
    Quat(k * q.x, k * q.y, k * q.z, k * q.w)
  }

  // The product as a sum of stretched copies of its left factor, one per component of the right one.

  function TurnedI(a: Quat): Quat {
    Quat(a.w, a.z, -a.y, -a.x)
  }

  function TurnedJ(a: Quat): Quat {
    Quat(-a.z, a.w, a.x, -a.y)
  }

  function TurnedK(a: Quat): Quat {
    Quat(a.y, -a.x, a.w, -a.z)
  }

  lemma ProductIsSum(a: Quat, b: Quat)
    ensures Multiply(a, b)
         == Add(Add(Scale(b.x, TurnedI(a)), Scale(b.y, TurnedJ(a))), Add(Scale(b.z, TurnedK(a)), Scale(b.w, a)))
  {
  }

  lemma Distributes(w: real, a: real, b: real)
    ensures w * (a + b) == w * a + w * b
    ensures (a + b) * w == a * w + b * w
  {
  }

  lemma ScaleAdd(k: real, a: Quat, b: Quat)
    ensures Scale(k, Add(a, b)) == Add(Scale(k, a), Scale(k, b))
  {
    Distributes(k, a.x, b.x);
    Distributes(k, a.y, b.y);
    Distributes(k, a.z, b.z);
    Distributes(k, a.w, b.w);
  }

  lemma ScaleSum(k: real, m: real, a: Quat)
    ensures Scale(k + m, a) == Add(Scale(k, a), Scale(m, a))
  {
    Distributes(a.x, k, m);
    Distributes(a.y, k, m);
    Distributes(a.z, k, m);
    Distributes(a.w, k, m);
  }

  lemma ScaleScale(k: real, m: real, a: Quat)
    ensures Scale(k * m, a) == Scale(k, Scale(m, a)) == Scale(m, Scale(k, a))
  {
  }

  lemma AddLeft(a: Quat, b: Quat, c: Quat)
    ensures Multiply(Add(a, b), c) == Add(Multiply(a, c), Multiply(b, c))
  {
    ProductIsSum(a, c);
    ProductIsSum(b, c);
    ProductIsSum(Add(a, b), c);
    ScaleAdd(c.x, TurnedI(a), TurnedI(b));
    ScaleAdd(c.y, TurnedJ(a), TurnedJ(b));
    ScaleAdd(c.z, TurnedK(a), TurnedK(b));
    ScaleAdd(c.w, a, b);
    assert TurnedI(Add(a, b)) == Add(TurnedI(a), TurnedI(b));
    assert TurnedJ(Add(a, b)) == Add(TurnedJ(a), TurnedJ(b));
    assert TurnedK(Add(a, b)) == Add(TurnedK(a), TurnedK(b));
    hide Scale, Multiply, TurnedI, TurnedJ, TurnedK;
  }

  lemma AddRight(a: Quat, b: Quat, c: Quat)
    ensures Multiply(a, Add(b, c)) == Add(Multiply(a, b), Multiply(a, c))
  {
    ProductIsSum(a, b);
    ProductIsSum(a, c);
    ProductIsSum(a, Add(b, c));
    ScaleSum(b.x, c.x, TurnedI(a));
    ScaleSum(b.y, c.y, TurnedJ(a));
    ScaleSum(b.z, c.z, TurnedK(a));
    ScaleSum(b.w, c.w, a);
    hide Scale, Multiply, TurnedI, TurnedJ, TurnedK;
  }

  lemma ScaleOfSum(k: real, p: Quat, q: Quat, r: Quat, s: Quat)
    ensures Scale(k, Add(Add(p, q), Add(r, s))) == Add(Add(Scale(k, p), Scale(k, q)), Add(Scale(k, r), Scale(k, s)))
  {
    ScaleAdd(k, Add(p, q), Add(r, s));
    ScaleAdd(k, p, q);
    ScaleAdd(k, r, s);
    hide Scale, Add;
  }

  lemma ScaleLeft(k: real, a: Quat, b: Quat)
    ensures Multiply(Scale(k, a), b) == Scale(k, Multiply(a, b))
  {
    hide Scale, Multiply, TurnedI, TurnedJ, TurnedK, Add;
    ProductIsSum(a, b);
    ProductIsSum(Scale(k, a), b);
    ScaleScale(k, b.x, TurnedI(a));
    ScaleScale(k, b.y, TurnedJ(a));
    ScaleScale(k, b.z, TurnedK(a));
    ScaleScale(k, b.w, a);
    ScaleTurned(k, a);
    ScaleOfSum(k, Scale(b.x, TurnedI(a)), Scale(b.y, TurnedJ(a)), Scale(b.z, TurnedK(a)), Scale(b.w, a));
  }

  lemma ScaleTurned(k: real, a: Quat)
    ensures TurnedI(Scale(k, a)) == Scale(k, TurnedI(a))
    ensures TurnedJ(Scale(k, a)) == Scale(k, TurnedJ(a))
    ensures TurnedK(Scale(k, a)) == Scale(k, TurnedK(a))
  {
    Negates(k, a.x);
    Negates(k, a.y);
    Negates(k, a.z);
  }

  lemma Negates(k: real, a: real)
    ensures k * -a == -(k * a)
  {
  }

  lemma ScaleParts(k: real, b: Quat)
    ensures Scale(k, b).x == k * b.x && Scale(k, b).y == k * b.y && Scale(k, b).z == k * b.z && Scale(k, b).w == k * b.w
  {
  }

  lemma ScaleRight(k: real, a: Quat, b: Quat)
    ensures Multiply(a, Scale(k, b)) == Scale(k, Multiply(a, b))
  {
    hide Scale, Multiply, TurnedI, TurnedJ, TurnedK, Add;
    ProductIsSum(a, b);
    ProductIsSum(a, Scale(k, b));
    ScaleScale(k, b.x, TurnedI(a));
    ScaleScale(k, b.y, TurnedJ(a));
    ScaleScale(k, b.z, TurnedK(a));
    ScaleScale(k, b.w, a);
    ScaleOfSum(k, Scale(b.x, TurnedI(a)), Scale(b.y, TurnedJ(a)), Scale(b.z, TurnedK(a)), Scale(b.w, a));
    ScaleParts(k, b);
  }

  ghost predicate Associates(a: Quat, b: Quat, c: Quat) {
    Multiply(Multiply(a, b), c) == Multiply(a, Multiply(b, c))
  }

  lemma AssociatesAdd(a: Quat, a': Quat, b: Quat, c: Quat)
    requires Associates(a, b, c) && Associates(a', b, c)
    ensures Associates(Add(a, a'), b, c)
  {
    AddLeft(a, a', b);
    AddLeft(Multiply(a, b), Multiply(a', b), c);
    AddLeft(a, a', Multiply(b, c));
    hide Multiply, Add;
  }

  lemma AssociatesScale(k: real, a: Quat, b: Quat, c: Quat)
    requires Associates(a, b, c)
    ensures Associates(Scale(k, a), b, c)
  {
    ScaleLeft(k, a, b);
    ScaleLeft(k, Multiply(a, b), c);
    ScaleLeft(k, a, Multiply(b, c));
    hide Multiply, Scale;
  }

  lemma UnitsAssociate(b: Quat, c: Quat)
    ensures Associates(I, b, c) && Associates(J, b, c) && Associates(K, b, c) && Associates(ONE, b, c)
  {
    AssociatesI(b, c);
    AssociatesJ(b, c);
    AssociatesK(b, c);
    AssociatesOne(b, c);
  }

  lemma AssociatesI(b: Quat, c: Quat)
    ensures Associates(I, b, c)
  {
  }

  lemma AssociatesJ(b: Quat, c: Quat)
    ensures Associates(J, b, c)
  {
  }

  lemma AssociatesK(b: Quat, c: Quat)
    ensures Associates(K, b, c)
  {
  }

  lemma AssociatesOne(b: Quat, c: Quat)
    ensures Associates(ONE, b, c)
  {
  }

  lemma MultiplyAssociates(a: Quat, b: Quat, c: Quat)
    ensures Multiply(Multiply(a, b), c) == Multiply(a, Multiply(b, c))
  {
    UnitsAssociate(b, c);
    var i, j, k, w := Scale(a.x, I), Scale(a.y, J), Scale(a.z, K), Scale(a.w, ONE);
    assert a == Add(Add(i, j), Add(k, w));
    AssociatesScale(a.x, I, b, c);
    AssociatesScale(a.y, J, b, c);
    AssociatesScale(a.z, K, b, c);
    AssociatesScale(a.w, ONE, b, c);
    AssociatesAdd(i, j, b, c);
    AssociatesAdd(k, w, b, c);
    AssociatesAdd(Add(i, j), Add(k, w), b, c);
    hide Multiply;
  }

  lemma ConjugateOfProduct(a: Quat, b: Quat)
    ensures Conjugate(Multiply(a, b)) == Multiply(Conjugate(b), Conjugate(a))
  {
    hide Multiply, Conjugate;
    ConjugateX(a, b);
    ConjugateY(a, b);
    ConjugateZ(a, b);
    ConjugateW(a, b);
    SameQuat(Conjugate(Multiply(a, b)), Multiply(Conjugate(b), Conjugate(a)));
  }

  lemma SameQuat(p: Quat, q: Quat)
    requires p.x == q.x && p.y == q.y && p.z == q.z && p.w == q.w
    ensures p == q
  {
  }

  lemma ConjugateX(a: Quat, b: Quat)
    ensures Conjugate(Multiply(a, b)).x == Multiply(Conjugate(b), Conjugate(a)).x
  {
    AxisConjugate(a.x, a.y, a.z, a.w, b.x, b.y, b.z, b.w);
  }

  lemma ConjugateY(a: Quat, b: Quat)
    ensures Conjugate(Multiply(a, b)).y == Multiply(Conjugate(b), Conjugate(a)).y
  {
    AxisConjugate(a.y, a.z, a.x, a.w, b.y, b.z, b.x, b.w);
  }

  lemma ConjugateZ(a: Quat, b: Quat)
    ensures Conjugate(Multiply(a, b)).z == Multiply(Conjugate(b), Conjugate(a)).z
  {
    AxisConjugate(a.z, a.x, a.y, a.w, b.z, b.x, b.y, b.w);
  }

  lemma ConjugateW(a: Quat, b: Quat)
    ensures Conjugate(Multiply(a, b)).w == Multiply(Conjugate(b), Conjugate(a)).w
  {
    NegatesBoth(b.x, a.x);
    NegatesBoth(b.y, a.y);
    NegatesBoth(b.z, a.z);
  }

  lemma NegatesBoth(p: real, q: real)
    ensures -p * -q == q * p
  {
  }

  /** One vector component of the conjugate of a product; the others follow by turning the axes. */
  lemma AxisConjugate(x: real, y: real, z: real, w: real, x': real, y': real, z': real, w': real)
    ensures -(w * x' + x * w' + y * z' - z * y') == w' * -x + -x' * w + -y' * -z - -z' * -y
  {
    NegatesBoth(y', z);
    NegatesBoth(z', y);
    Negates(w', x);
  }

  lemma ProductWithConjugate(q: Quat)
    ensures Multiply(Conjugate(q), q) == Scale(Norm(q), ONE)
  {
  }

  lemma OneIsNeutral(q: Quat)
    ensures Multiply(ONE, q) == q
  {
  }

  lemma NormOfProduct(a: Quat, b: Quat)
    ensures Norm(Multiply(a, b)) == Norm(a) * Norm(b)
  {
    var ab, a', b' := Multiply(a, b), Conjugate(a), Conjugate(b);
    ProductWithConjugate(ab);
    ProductWithConjugate(a);
    ProductWithConjugate(b);
    ConjugateOfProduct(a, b);
    MultiplyAssociates(b', a', ab);
    MultiplyAssociates(a', a, b);
    ScaleLeft(Norm(a), ONE, b);
    OneIsNeutral(b);
    ScaleRight(Norm(a), b', b);
    hide Multiply, Conjugate, Norm;
    assert Scale(Norm(ab), ONE) == Scale(Norm(a), Scale(Norm(b), ONE));
    assert Scale(Norm(ab), ONE).w == Norm(ab);
  }

  // ---------------------------------------------------------------- rotating is multiplying on both sides

  function Sandwich(q: Quat, v: Quat): Quat {
    Multiply(Multiply(q, v), Conjugate(q))
  }

  lemma SandwichAdd(q: Quat, u: Quat, v: Quat)
    ensures Sandwich(q, Add(u, v)) == Add(Sandwich(q, u), Sandwich(q, v))
  {
    AddRight(q, u, v);
    AddLeft(Multiply(q, u), Multiply(q, v), Conjugate(q));
    hide Multiply, Add;
  }

  lemma SandwichScale(q: Quat, k: real, v: Quat)
    ensures Sandwich(q, Scale(k, v)) == Scale(k, Sandwich(q, v))
  {
    ScaleRight(k, q, v);
    ScaleLeft(k, Multiply(q, v), Conjugate(q));
    hide Multiply, Scale;
  }

  const EX := Vec(1.0, 0.0, 0.0)
  const EY := Vec(0.0, 1.0, 0.0)
  const EZ := Vec(0.0, 0.0, 1.0)

  lemma RotatedX(q: Quat)
    ensures RotateVector(q, EX)
            == Vec(1.0 - 2.0 * (q.y * q.y + q.z * q.z), 2.0 * (q.w * q.z + q.x * q.y), 2.0 * (q.x * q.z - q.w * q.y))
  {
    assert Cross(Vec(q.x, q.y, q.z), EX) == Vec(0.0, q.z, -q.y);
  }

  lemma RotatedY(q: Quat)
    ensures RotateVector(q, EY)
            == Vec(2.0 * (q.x * q.y - q.w * q.z), 1.0 - 2.0 * (q.z * q.z + q.x * q.x), 2.0 * (q.w * q.x + q.y * q.z))
  {
    assert Cross(Vec(q.x, q.y, q.z), EY) == Vec(-q.z, 0.0, q.x);
  }

  lemma RotatedZ(q: Quat)
    ensures RotateVector(q, EZ)
            == Vec(2.0 * (q.w * q.y + q.x * q.z), 2.0 * (q.y * q.z - q.w * q.x), 1.0 - 2.0 * (q.x * q.x + q.y * q.y))
  {
    assert Cross(Vec(q.x, q.y, q.z), EZ) == Vec(q.y, -q.x, 0.0);
  }

  lemma SandwichedX(q: Quat)
    requires Unit(q)
    ensures Sandwich(q, I) == Pure(RotateVector(q, EX))
  {
    RotatedX(q);
    hide RotateVector;
    assert Multiply(q, I) == TurnedI(q);
    assert Multiply(TurnedI(q), Conjugate(q))
        == Quat(q.x * q.x + q.w * q.w - q.y * q.y - q.z * q.z, 2.0 * (q.w * q.z + q.x * q.y),
                2.0 * (q.x * q.z - q.w * q.y), 0.0);
  }

  lemma SandwichedY(q: Quat)
    requires Unit(q)
    ensures Sandwich(q, J) == Pure(RotateVector(q, EY))
  {
    RotatedY(q);
    hide RotateVector;
    assert Multiply(q, J) == TurnedJ(q);
    assert Multiply(TurnedJ(q), Conjugate(q))
        == Quat(2.0 * (q.x * q.y - q.w * q.z), q.y * q.y + q.w * q.w - q.z * q.z - q.x * q.x,
                2.0 * (q.w * q.x + q.y * q.z), 0.0);
  }

  lemma SandwichedZ(q: Quat)
    requires Unit(q)
    ensures Sandwich(q, K) == Pure(RotateVector(q, EZ))
  {
    RotatedZ(q);
    hide RotateVector;
    assert Multiply(q, K) == TurnedK(q);
    assert Multiply(TurnedK(q), Conjugate(q))
        == Quat(2.0 * (q.w * q.y + q.x * q.z), 2.0 * (q.y * q.z - q.w * q.x),
                q.z * q.z + q.w * q.w - q.x * q.x - q.y * q.y, 0.0);
  }

  lemma TimesPlus(k: real, a: Vec, b: Vec)
    ensures Times(k, Plus(a, b)) == Plus(Times(k, a), Times(k, b))
  {
    Distributes(k, a.x, b.x);
    Distributes(k, a.y, b.y);
    Distributes(k, a.z, b.z);
  }

  lemma TimesTimes(k: real, m: real, a: Vec)
    ensures Times(k, Times(m, a)) == Times(m, Times(k, a))
  {
  }

  lemma CrossAdds(n: Vec, u: Vec, v: Vec)
    ensures Cross(n, Plus(u, v)) == Plus(Cross(n, u), Cross(n, v))
  {
    Distributes(n.x, u.y, v.y);
    Distributes(n.x, u.z, v.z);
    Distributes(n.y, u.x, v.x);
    Distributes(n.y, u.z, v.z);
    Distributes(n.z, u.x, v.x);
    Distributes(n.z, u.y, v.y);
  }

  lemma CrossScales(u: Vec, k: real, v: Vec)
    ensures Cross(u, Times(k, v)) == Times(k, Cross(u, v))
  {
    var t := Times(k, v);
    CrossComponent(k, u.y, v.z, t.z, u.z, v.y, t.y);
    CrossComponent(k, u.z, v.x, t.x, u.x, v.z, t.z);
    CrossComponent(k, u.x, v.y, t.y, u.y, v.x, t.x);
    hide Times;
    TimesParts(k, Cross(u, v));
  }

  lemma TimesParts(k: real, v: Vec)
    ensures Times(k, v).x == k * v.x && Times(k, v).y == k * v.y && Times(k, v).z == k * v.z
  {
  }

  lemma CrossComponent(k: real, p: real, q: real, kq: real, r: real, s: real, ks: real)
    requires kq == k * q && ks == k * s
    ensures p * kq - r * ks == k * (p * q - r * s)
  {
    Slides(k, p, q);
    Slides(k, r, s);
    Subtracts(k, p * q, r * s);
  }

  lemma Slides(k: real, p: real, q: real)
    ensures p * (k * q) == k * (p * q)
  {
  }

  lemma Subtracts(k: real, a: real, b: real)
    ensures k * (a - b) == k * a - k * b
  {
  }

  lemma TurnAdds(w: real, u: Vec, v: Vec, nu: Vec, nv: Vec, nnu: Vec, nnv: Vec)
    ensures Turn(w, Plus(u, v), Plus(nu, nv), Plus(nnu, nnv)) == Plus(Turn(w, u, nu, nnu), Turn(w, v, nv, nnv))
  {
    TimesPlus(w, nu, nv);
    var a, b := Plus(Times(w, nu), nnu), Plus(Times(w, nv), nnv);
    TimesPlus(2.0, a, b);
    assert Plus(Plus(Times(w, nu), Times(w, nv)), Plus(nnu, nnv)) == Plus(a, b);
    hide Times;
  }

  lemma RotationAdds(q: Quat, u: Vec, v: Vec)
    ensures RotateVector(q, Plus(u, v)) == Plus(RotateVector(q, u), RotateVector(q, v))
  {
    var n := Vec(q.x, q.y, q.z);
    var nu, nv := Cross(n, u), Cross(n, v);
    CrossAdds(n, u, v);
    CrossAdds(n, nu, nv);
    TurnAdds(q.w, u, v, nu, nv, Cross(n, nu), Cross(n, nv));
    hide Cross, Turn, Plus;
  }

  lemma RotationScales(q: Quat, k: real, v: Vec)
    ensures RotateVector(q, Times(k, v)) == Times(k, RotateVector(q, v))
  {
    var n := Vec(q.x, q.y, q.z);
    var nv := Cross(n, v);
    var nnv := Cross(n, nv);
    CrossScales(n, k, v);
    CrossScales(n, k, nv);
    TimesTimes(k, q.w, nv);
    TimesPlus(k, Times(q.w, nv), nnv);
    TimesTimes(k, 2.0, Plus(Times(q.w, nv), nnv));
    TimesPlus(k, v, Times(2.0, Plus(Times(q.w, nv), nnv)));
    hide Cross, Times, Plus;
  }

  lemma RotationIsLinear(q: Quat, v: Vec)
    ensures RotateVector(q, v)
         == Plus(Plus(Times(v.x, RotateVector(q, EX)), Times(v.y, RotateVector(q, EY))),
                 Times(v.z, RotateVector(q, EZ)))
  {
    var a, b, c := Times(v.x, EX), Times(v.y, EY), Times(v.z, EZ);
    assert v == Plus(Plus(a, b), c);
    RotationScales(q, v.x, EX);
    RotationScales(q, v.y, EY);
    RotationScales(q, v.z, EZ);
    RotationAdds(q, a, b);
    RotationAdds(q, Plus(a, b), c);
    hide RotateVector;
  }

  lemma PureSums(a: Vec, b: Vec, c: Vec, x: real, y: real, z: real)
    ensures Pure(Plus(Plus(Times(x, a), Times(y, b)), Times(z, c)))
         == Add(Add(Scale(x, Pure(a)), Scale(y, Pure(b))), Scale(z, Pure(c)))
  {
  }

  /** For a unit quaternion, rotating is multiplying on both sides. */
  lemma RotationIsSandwich(q: Quat, v: Vec)
    requires Unit(q)
    ensures Sandwich(q, Pure(v)) == Pure(RotateVector(q, v))
  {
    SandwichedX(q);
    SandwichedY(q);
    SandwichedZ(q);
    RotationIsLinear(q, v);
    PureSums(RotateVector(q, EX), RotateVector(q, EY), RotateVector(q, EZ), v.x, v.y, v.z);
    var i, j, k := Scale(v.x, I), Scale(v.y, J), Scale(v.z, K);
    assert Pure(v) == Add(Add(i, j), k);
    SandwichScale(q, v.x, I);
    SandwichScale(q, v.y, J);
    SandwichScale(q, v.z, K);
    SandwichAdd(q, i, j);
    SandwichAdd(q, Add(i, j), k);
    hide Sandwich, RotateVector;
  }

  // ---------------------------------------------------------------- main results

  lemma UnitsCompose(a: Quat, b: Quat)
    requires Unit(a) && Unit(b)
    ensures Unit(Multiply(a, b)) && Unit(Conjugate(a))
  {
    NormOfProduct(a, b);
    hide Multiply;
  }

  lemma SandwichTwice(a: Quat, b: Quat, v: Quat)
    ensures Sandwich(a, Sandwich(b, v)) == Sandwich(Multiply(a, b), v)
  {
    var a', b' := Conjugate(a), Conjugate(b);
    ConjugateOfProduct(a, b);
    hide Multiply, Conjugate;
    MultiplyAssociates(a, Multiply(b, v), b');
    MultiplyAssociates(a, b, v);
    MultiplyAssociates(Multiply(Multiply(a, b), v), b', a');
  }

  lemma PureIsInjective(u: Vec, v: Vec)
    requires Pure(u) == Pure(v)
    ensures u == v
  {
  }

  /** Rotating by a product is rotating by one factor after the other. */
  lemma RotationsCompose(a: Quat, b: Quat, v: Vec)
    requires Unit(a) && Unit(b)
    ensures RotateVector(Multiply(a, b), v) == RotateVector(a, RotateVector(b, v))
  {
    UnitsCompose(a, b);
    RotationIsSandwich(b, v);
    RotationIsSandwich(a, RotateVector(b, v));
    RotationIsSandwich(Multiply(a, b), v);
    SandwichTwice(a, b, Pure(v));
    hide Multiply, RotateVector, Sandwich, Pure;
    PureIsInjective(RotateVector(Multiply(a, b), v), RotateVector(a, RotateVector(b, v)));
  }

  /** Applying a composed pose is applying the inner pose, then the outer one. */
  lemma ComposedPoseIsSequential(a: Pose, b: Pose, v: Vec)
    requires Unit(a.rotation) && Unit(b.rotation)
    ensures RotateAndTranslate(ComposePoses(a, b), v) == RotateAndTranslate(a, RotateAndTranslate(b, v))
  {
    RotationsCompose(a.rotation, b.rotation, v);
    RotationAdds(a.rotation, RotateVector(b.rotation, v), b.translation);
    hide Multiply, RotateVector;
  }

  /** Rotation keeps lengths. */
  lemma RotationKeepsLength(q: Quat, v: Vec)
    requires Unit(q)
    ensures Squared(RotateVector(q, v)) == Squared(v)
  {
    RotationIsSandwich(q, v);
    NormOfProduct(q, Pure(v));
    NormOfProduct(Multiply(q, Pure(v)), Conjugate(q));
    assert Norm(Conjugate(q)) == 1.0;
    hide Multiply, RotateVector;
    assert Norm(Pure(RotateVector(q, v))) == Squared(RotateVector(q, v));
    assert Norm(Pure(v)) == Squared(v);
  }

  lemma RotationByOne(v: Vec)
    ensures RotateVector(ONE, v) == v
  {
    hide Cross, Turn;
    CrossZero(v);
    CrossZero(Vec(0.0, 0.0, 0.0));
    TurnNowhere(v, Vec(0.0, 0.0, 0.0));
  }

  lemma TurnNowhere(v: Vec, zero: Vec)
    requires zero == Vec(0.0, 0.0, 0.0)
    ensures Turn(1.0, v, zero, zero) == v
  {
    hide Times, Plus;
    TimesZero(1.0, zero);
    TimesZero(2.0, zero);
    PlusZero(zero, zero);
    PlusZero(v, zero);
  }

  lemma PlusZero(v: Vec, zero: Vec)
    requires zero == Vec(0.0, 0.0, 0.0)
    ensures Plus(v, zero) == v
  {
  }

  lemma TimesZero(k: real, zero: Vec)
    requires zero == Vec(0.0, 0.0, 0.0)
    ensures Times(k, zero) == zero
  {
  }

  lemma CrossZero(v: Vec)
    ensures Cross(Vec(0.0, 0.0, 0.0), v) == Vec(0.0, 0.0, 0.0)
  {
  }

  /** Rotating by the conjugate undoes the rotation. */
  lemma ConjugateUndoes(q: Quat, v: Vec)
    requires Unit(q)
    ensures RotateVector(Conjugate(q), RotateVector(q, v)) == v
  {
    UnitsCompose(q, q);
    RotationsCompose(Conjugate(q), q, v);
    ProductWithConjugate(q);
    RotationByOne(v);
    hide RotateVector, Multiply;
  }

  /** So the field-of-view test's rotated offset is the point in the sensor's own frame. */
  lemma OffsetIsLocal(pose: Pose, p: Vec)
    requires Unit(pose.rotation)
    ensures RotateVector(Conjugate(pose.rotation), Minus(RotateAndTranslate(pose, p), pose.translation)) == p
  {
    ConjugateUndoes(pose.rotation, p);
    hide RotateVector;
    assert Minus(RotateAndTranslate(pose, p), pose.translation) == RotateVector(pose.rotation, p);
  }

  /** Without a rotation a pose adds its translation. */
  lemma TranslationAdds(t: Vec, v: Vec)
    ensures RotateAndTranslate(Pose(t, ONE), v) == Vec(v.x + t.x, v.y + t.y, v.z + t.z)
  {
    RotationByOne(v);
  }

  /** A quarter turn about z, s being the root of a half, takes x to y: rotations are right-handed. */
  lemma QuarterTurn(s: real, v: Vec)
    requires 2.0 * s * s == 1.0
    ensures RotateVector(Quat(0.0, 0.0, s, s), v) == Vec(-v.y, v.x, v.z)
  {
    var u := Vec(0.0, 0.0, s);
    var uv := Vec(-(s * v.y), s * v.x, 0.0);
    var uuv := Vec(-(s * (s * v.x)), -(s * (s * v.y)), 0.0);
    CrossUp(s, v);
    CrossUp(s, uv);
    assert Cross(u, v) == uv && Cross(u, uv) == uuv;
    hide Cross;
    HalfSquare(s, v.x);
    HalfSquare(s, v.y);
    assert Turn(s, v, uv, uuv).x == v.x - 2.0 * (s * (s * v.y)) - 2.0 * (s * (s * v.x));
    assert Turn(s, v, uv, uuv).y == v.y + 2.0 * (s * (s * v.x)) - 2.0 * (s * (s * v.y));
  }

  lemma CrossUp(s: real, v: Vec)
    ensures Cross(Vec(0.0, 0.0, s), v) == Vec(-(s * v.y), s * v.x, 0.0)
  {
  }

  lemma HalfSquare(s: real, a: real)
    requires 2.0 * s * s == 1.0
    ensures 2.0 * (s * (s * a)) == a
  {
    assert s * (s * a) == (s * s) * a;
  }
}
