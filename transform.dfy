/** Homogeneous transform algebra: `MathLib.multiply_matrix` and
    `MathLib.get_transform_matrix`. Numbers are reals; cosine and sine are
    supplied by the caller as a `Trig` pair, since their values are not part
    of the model. */
module Transform {

  /** A homogeneous point (x, y, z, w), a 4-element list in the program. */
  datatype Vec4 = Vec4(x: real, y: real, z: real, w: real)

  /** A 4x4 matrix stored row by row; the translation sits in row 3. */
  datatype Mat4 = Mat4(r0: Vec4, r1: Vec4, r2: Vec4, r3: Vec4)

  /** The second argument of `get_transform_matrix`: a number for the
      rotations and 'scale', a triple (dx, dy, dz) for 'trans'. */
  datatype Param = Num(v: real) | Triple(dx: real, dy: real, dz: real)

  /** The trigonometric functions the rotations use. */
  datatype Trig = Trig(cos: real -> real, sin: real -> real)

  const RotXTag: string := "rotX"
  const RotYTag: string := "rotY"
  const RotZTag: string := "rotZ"
  const ScaleTag: string := "scale"
  const TransTag: string := "trans"

  predicate IsKnownTag(tag: string) {
    tag == RotXTag || tag == RotYTag || tag == RotZTag || tag == ScaleTag || tag == TransTag
  }

  /** The parameter has the shape the tag reads: a number for rotations and
      scaling, a triple for translation; an unknown tag ignores it. */
  predicate ParamFits(tag: string, p: Param) {
    (tag == RotXTag || tag == RotYTag || tag == RotZTag || tag == ScaleTag ==> p.Num?) &&
    (tag == TransTag ==> p.Triple?)
  }

  function Identity(): Mat4 {
    Mat4(Vec4(1.0, 0.0, 0.0, 0.0),
         Vec4(0.0, 1.0, 0.0, 0.0),
         Vec4(0.0, 0.0, 1.0, 0.0),
         Vec4(0.0, 0.0, 0.0, 1.0))
  }

  /** The last column is (0, 0, 0, 1): the matrix is an affine map. */
  predicate IsAffine(m: Mat4) {
    m.r0.w == 0.0 && m.r1.w == 0.0 && m.r2.w == 0.0 && m.r3.w == 1.0
  }

  /** Row vector times matrix: component i is the sum over j of v[j] * m[j][i]. */
  function Multiply(v: Vec4, m: Mat4): (r: Vec4)
    ensures IsAffine(m) ==> r.w == v.w
    ensures m == Identity() ==> r == v
  {
    Vec4(v.x * m.r0.x + v.y * m.r1.x + v.z * m.r2.x + v.w * m.r3.x,
         v.x * m.r0.y + v.y * m.r1.y + v.z * m.r2.y + v.w * m.r3.y,
         v.x * m.r0.z + v.y * m.r1.z + v.z * m.r2.z + v.w * m.r3.z,
         v.x * m.r0.w + v.y * m.r1.w + v.z * m.r2.w + v.w * m.r3.w)
  }

  function RotX(c: real, s: real): Mat4 {
    Mat4(Vec4(1.0, 0.0, 0.0, 0.0), Vec4(0.0, c, -s, 0.0), Vec4(0.0, s, c, 0.0), Vec4(0.0, 0.0, 0.0, 1.0))
  }

  function RotY(c: real, s: real): Mat4 {
    Mat4(Vec4(c, 0.0, s, 0.0), Vec4(0.0, 1.0, 0.0, 0.0), Vec4(-s, 0.0, c, 0.0), Vec4(0.0, 0.0, 0.0, 1.0))
  }

  function RotZ(c: real, s: real): Mat4 {
    Mat4(Vec4(c, -s, 0.0, 0.0), Vec4(s, c, 0.0, 0.0), Vec4(0.0, 0.0, 1.0, 0.0), Vec4(0.0, 0.0, 0.0, 1.0))
  }

  function ScaleBy(k: real): Mat4 {
    Mat4(Vec4(k, 0.0, 0.0, 0.0), Vec4(0.0, k, 0.0, 0.0), Vec4(0.0, 0.0, k, 0.0), Vec4(0.0, 0.0, 0.0, 1.0))
  }

  function Translate(dx: real, dy: real, dz: real): Mat4 {
    Mat4(Vec4(1.0, 0.0, 0.0, 0.0), Vec4(0.0, 1.0, 0.0, 0.0), Vec4(0.0, 0.0, 1.0, 0.0), Vec4(dx, dy, dz, 1.0))
  }

  /** The matrix for a transform tag; any tag it does not know gives the
      identity. */
  function TransformMatrix(tag: string, p: Param, trig: Trig): (m: Mat4)
    requires ParamFits(tag, p)
    ensures IsAffine(m)
    ensures !IsKnownTag(tag) ==> m == Identity()
  {
    if tag == RotXTag then RotX(trig.cos(p.v), trig.sin(p.v))
    else if tag == RotYTag then RotY(trig.cos(p.v), trig.sin(p.v))
    else if tag == RotZTag then RotZ(trig.cos(p.v), trig.sin(p.v))
    else if tag == ScaleTag then ScaleBy(p.v)
    else if tag == TransTag then Translate(p.dx, p.dy, p.dz)
    else Identity()
  }

  /** Every transform keeps the w component of every vector. */
  lemma TransformKeepsW(v: Vec4, tag: string, p: Param, trig: Trig)
    requires ParamFits(tag, p)
    ensures Multiply(v, TransformMatrix(tag, p, trig)).w == v.w
  {
  }

  /** An unknown tag leaves every vector as it is. */
  lemma UnknownTagIsNoOp(v: Vec4, tag: string, p: Param, trig: Trig)
    requires !IsKnownTag(tag)
    ensures Multiply(v, TransformMatrix(tag, p, trig)) == v
  {
  }

  /** Each rotation leaves the coordinate of its own axis (and w) alone. */
  lemma RotationsFixTheirAxis(v: Vec4, a: real, trig: Trig)
    ensures Multiply(v, TransformMatrix(RotXTag, Num(a), trig)).x == v.x
    ensures Multiply(v, TransformMatrix(RotYTag, Num(a), trig)).y == v.y
    ensures Multiply(v, TransformMatrix(RotZTag, Num(a), trig)).z == v.z
  {
  }

  /** 'scale' multiplies x, y and z by the factor; factor 1 changes nothing. */
  lemma ScaleMultiplies(v: Vec4, k: real, trig: Trig)
    ensures Multiply(v, TransformMatrix(ScaleTag, Num(k), trig)) == Vec4(k * v.x, k * v.y, k * v.z, v.w)
    ensures k == 1.0 ==> Multiply(v, TransformMatrix(ScaleTag, Num(k), trig)) == v
  {
  }

  /** 'trans' adds (dx, dy, dz), weighted by w, to (x, y, z). */
  lemma TranslateAdds(v: Vec4, dx: real, dy: real, dz: real, trig: Trig)
    ensures Multiply(v, TransformMatrix(TransTag, Triple(dx, dy, dz), trig))
         == Vec4(v.x + dx * v.w, v.y + dy * v.w, v.z + dz * v.w, v.w)
  {
  }

  /** The identities of cosine and sine at angle a that undoing a rotation needs. */
  predicate TrigLawsAt(trig: Trig, a: real) {
    trig.cos(-a) == trig.cos(a) && trig.sin(-a) == -trig.sin(a) &&
    trig.cos(a) * trig.cos(a) + trig.sin(a) * trig.sin(a) == 1.0
  }

  /** Rotating (p, q) by c, s in a coordinate plane, giving (p1, q1), and
      then by c, -s gives back (p, q) when c^2 + s^2 = 1. */
  lemma PlaneRotationUndone(p: real, q: real, c: real, s: real, p1: real, q1: real)
    requires c * c + s * s == 1.0
    requires p1 == p * c + q * s && q1 == p * -s + q * c
    ensures p1 * c + q1 * -s == p
    ensures p1 * s + q1 * c == q
  {
    calc {
      p1 * c + q1 * -s;
      (p * c + q * s) * c + (p * -s + q * c) * -s;
      p * (c * c + s * s);
      p;
    }
    calc {
      p1 * s + q1 * c;
      (p * c + q * s) * s + (p * -s + q * c) * c;
      q * (c * c + s * s);
      q;
    }
  }

  /** The rotX matrix for c, -s undoes the one for c, s. */
  lemma RotXUndone(v: Vec4, c: real, s: real)
    requires c * c + s * s == 1.0
    ensures Multiply(Multiply(v, RotX(c, s)), RotX(c, -s)) == v
  {
    var u := Multiply(v, RotX(c, s));
    PlaneRotationUndone(v.y, v.z, c, s, u.y, u.z);
  }

  /** The rotY matrix for c, -s undoes the one for c, s. */
  lemma RotYUndone(v: Vec4, c: real, s: real)
    requires c * c + s * s == 1.0
    ensures Multiply(Multiply(v, RotY(c, s)), RotY(c, -s)) == v
  {
    var u := Multiply(v, RotY(c, s));
    PlaneRotationUndone(v.z, v.x, c, s, u.z, u.x);
  }

  /** The rotZ matrix for c, -s undoes the one for c, s. */
  lemma RotZUndone(v: Vec4, c: real, s: real)
    requires c * c + s * s == 1.0
    ensures Multiply(Multiply(v, RotZ(c, s)), RotZ(c, -s)) == v
  {
    var u := Multiply(v, RotZ(c, s));
    PlaneRotationUndone(v.x, v.y, c, s, u.x, u.y);
  }

  /** Rotating about any axis by a and then by -a gives back the vector. */
  lemma RotationUndone(v: Vec4, a: real, trig: Trig)
    requires TrigLawsAt(trig, a)
    ensures Multiply(Multiply(v, TransformMatrix(RotXTag, Num(a), trig)), TransformMatrix(RotXTag, Num(-a), trig)) == v
    ensures Multiply(Multiply(v, TransformMatrix(RotYTag, Num(a), trig)), TransformMatrix(RotYTag, Num(-a), trig)) == v
    ensures Multiply(Multiply(v, TransformMatrix(RotZTag, Num(a), trig)), TransformMatrix(RotZTag, Num(-a), trig)) == v
  {
    var c, s := trig.cos(a), trig.sin(a);
    RotXUndone(v, c, s);
    RotYUndone(v, c, s);
    RotZUndone(v, c, s);
  }

  /** Scaling by k and then by 1/k gives back the vector. */
  lemma ScaleUndone(v: Vec4, k: real, trig: Trig)
    requires k != 0.0
    ensures Multiply(Multiply(v, TransformMatrix(ScaleTag, Num(k), trig)), TransformMatrix(ScaleTag, Num(1.0 / k), trig)) == v
  {
    assert 1.0 / k * k == 1.0;
  }

  /** Translating by d and then by -d gives back the vector. */
  lemma TranslateUndone(v: Vec4, dx: real, dy: real, dz: real, trig: Trig)
    ensures Multiply(Multiply(v, TransformMatrix(TransTag, Triple(dx, dy, dz), trig)),
                     TransformMatrix(TransTag, Triple(-dx, -dy, -dz), trig)) == v
  {
  }
}
