/**
 * The fixed-size matrices behind the transforms of transform.rs, row-vector
 * convention (a point is a row, multiplied on the left). The 2D transforms keep a
 * 3x2 matrix `[[T; 2]; 3]` whose third row is the translation; the 3D transforms
 * keep a 4x4 matrix `[[T; 4]; 4]`, together with its determinant, transpose and
 * cofactor inverse.
 */
module Matrices {
  import opened Wrappers

  // 3x2 affine matrices.

  datatype Mat3x2 = Mat3x2(m11: real, m12: real, m21: real, m22: real, m31: real, m32: real)

  /** The matrix of `Transform2::identity`. */
  function Identity3x2(): Mat3x2 { Mat3x2(1.0, 0.0, 0.0, 1.0, 0.0, 0.0) }

  /** A row times a column of two entries. */
  function Dot2(a1: real, a2: real, b1: real, b2: real): real { a1 * b1 + a2 * b2 }

  /**
   * The `matmul` of `Transform2 * Transform2`: the 3x2 matrices are multiplied as
   * 3x3 matrices whose last column is (0, 0, 1), so `a` acts first.
   */
  function MatMul3x2(a: Mat3x2, b: Mat3x2): Mat3x2
  {
    Mat3x2(Dot2(a.m11, a.m12, b.m11, b.m21), Dot2(a.m11, a.m12, b.m12, b.m22),
           Dot2(a.m21, a.m22, b.m11, b.m21), Dot2(a.m21, a.m22, b.m12, b.m22),
           Dot2(a.m31, a.m32, b.m11, b.m21) + b.m31, Dot2(a.m31, a.m32, b.m12, b.m22) + b.m32)
  }

  /** `b` undoes `a` and `a` undoes `b`. */
  predicate Inverts3x2(a: Mat3x2, b: Mat3x2)
  {
    MatMul3x2(a, b) == Identity3x2() && MatMul3x2(b, a) == Identity3x2()
  }

  lemma MatMul3x2Identity(a: Mat3x2)
    ensures MatMul3x2(Identity3x2(), a) == a && MatMul3x2(a, Identity3x2()) == a
  {
  }

  lemma MatMul3x2Assoc(a: Mat3x2, b: Mat3x2, c: Mat3x2)
    ensures MatMul3x2(MatMul3x2(a, b), c) == MatMul3x2(a, MatMul3x2(b, c))
  {
    Assoc2(a.m11, a.m12, b.m11, b.m12, b.m21, b.m22, c.m11, c.m21);
    Assoc2(a.m11, a.m12, b.m11, b.m12, b.m21, b.m22, c.m12, c.m22);
    Assoc2(a.m21, a.m22, b.m11, b.m12, b.m21, b.m22, c.m11, c.m21);
    Assoc2(a.m21, a.m22, b.m11, b.m12, b.m21, b.m22, c.m12, c.m22);
    AssocAffine(a.m31, a.m32, b.m11, b.m12, b.m21, b.m22, b.m31, b.m32, c.m11, c.m21, c.m31);
    AssocAffine(a.m31, a.m32, b.m11, b.m12, b.m21, b.m22, b.m31, b.m32, c.m12, c.m22, c.m32);
  }

  /** One entry of the associativity of a 2x2 product. */
  lemma Assoc2(a1: real, a2: real, b11: real, b12: real, b21: real, b22: real, c1: real, c2: real)
    ensures Dot2(Dot2(a1, a2, b11, b21), Dot2(a1, a2, b12, b22), c1, c2)
         == Dot2(a1, a2, Dot2(b11, b12, c1, c2), Dot2(b21, b22, c1, c2))
  {
  }

  /** The same for the translation row, which carries the implicit 1 of the third column. */
  lemma AssocAffine(a1: real, a2: real, b11: real, b12: real, b21: real, b22: real, b31: real, b32: real,
                    c1: real, c2: real, c3: real)
    ensures Dot2(Dot2(a1, a2, b11, b21) + b31, Dot2(a1, a2, b12, b22) + b32, c1, c2) + c3
         == Dot2(a1, a2, Dot2(b11, b12, c1, c2), Dot2(b21, b22, c1, c2)) + (Dot2(b31, b32, c1, c2) + c3)
  {
  }

  /** Inverse pairs compose in reverse order, as `Transform2 * Transform2` computes `mat_inv`. */
  lemma Inverts3x2Compose(m1: Mat3x2, i1: Mat3x2, m2: Mat3x2, i2: Mat3x2)
    requires Inverts3x2(m1, i1) && Inverts3x2(m2, i2)
    ensures Inverts3x2(MatMul3x2(m1, m2), MatMul3x2(i2, i1))
  {
    MatMul3x2Assoc(MatMul3x2(m1, m2), i2, i1);
    MatMul3x2Assoc(m1, m2, i2);
    MatMul3x2Identity(m1);
    MatMul3x2Assoc(MatMul3x2(i2, i1), m1, m2);
    MatMul3x2Assoc(i2, i1, m1);
    MatMul3x2Identity(i2);
  }

  // 4x4 matrices.

  datatype Mat4 = Mat4(
    m11: real, m12: real, m13: real, m14: real,
    m21: real, m22: real, m23: real, m24: real,
    m31: real, m32: real, m33: real, m34: real,
    m41: real, m42: real, m43: real, m44: real)
  {
    /** `mat_determinant`: the 24-term Leibniz expansion. */
    function Determinant(): real
    {
      m14 * m23 * m32 * m41 - m13 * m24 * m32 * m41 - m14 * m22 * m33 * m41
      + m12 * m24 * m33 * m41 + m13 * m22 * m34 * m41 - m12 * m23 * m34 * m41
      - m14 * m23 * m31 * m42 + m13 * m24 * m31 * m42 + m14 * m21 * m33 * m42
      - m11 * m24 * m33 * m42 - m13 * m21 * m34 * m42 + m11 * m23 * m34 * m42
      + m14 * m22 * m31 * m43 - m12 * m24 * m31 * m43 - m14 * m21 * m32 * m43
      + m11 * m24 * m32 * m43 + m12 * m21 * m34 * m43 - m11 * m22 * m34 * m43
      - m13 * m22 * m31 * m44 + m12 * m23 * m31 * m44 + m13 * m21 * m32 * m44
      - m11 * m23 * m32 * m44 - m12 * m21 * m33 * m44 + m11 * m22 * m33 * m44
    }

    /** `mat_transpose`. */
    function Transpose(): Mat4
    {
      Mat4(m11, m21, m31, m41,
           m12, m22, m32, m42,
           m13, m23, m33, m43,
           m14, m24, m34, m44)
    }
  }

  /** The matrix of `Transform3::identity`. */
  function Identity4(): Mat4
  {
    Mat4(1.0, 0.0, 0.0, 0.0,
         0.0, 1.0, 0.0, 0.0,
         0.0, 0.0, 1.0, 0.0,
         0.0, 0.0, 0.0, 1.0)
  }

  /** A row times a column: one entry of the 4x4 `matmul`. */
  function Dot4(a1: real, a2: real, a3: real, a4: real, b1: real, b2: real, b3: real, b4: real): real
  {
    a1 * b1 + a2 * b2 + a3 * b3 + a4 * b4
  }

  /** The `matmul` of `Transform3 * Transform3`: entry (i, j) is row i of `a` times column j of `b`. */
  function MatMul4(a: Mat4, b: Mat4): Mat4
  {
    Mat4(
      Dot4(a.m11, a.m12, a.m13, a.m14, b.m11, b.m21, b.m31, b.m41),
      Dot4(a.m11, a.m12, a.m13, a.m14, b.m12, b.m22, b.m32, b.m42),
      Dot4(a.m11, a.m12, a.m13, a.m14, b.m13, b.m23, b.m33, b.m43),
      Dot4(a.m11, a.m12, a.m13, a.m14, b.m14, b.m24, b.m34, b.m44),
      Dot4(a.m21, a.m22, a.m23, a.m24, b.m11, b.m21, b.m31, b.m41),
      Dot4(a.m21, a.m22, a.m23, a.m24, b.m12, b.m22, b.m32, b.m42),
      Dot4(a.m21, a.m22, a.m23, a.m24, b.m13, b.m23, b.m33, b.m43),
      Dot4(a.m21, a.m22, a.m23, a.m24, b.m14, b.m24, b.m34, b.m44),
      Dot4(a.m31, a.m32, a.m33, a.m34, b.m11, b.m21, b.m31, b.m41),
      Dot4(a.m31, a.m32, a.m33, a.m34, b.m12, b.m22, b.m32, b.m42),
      Dot4(a.m31, a.m32, a.m33, a.m34, b.m13, b.m23, b.m33, b.m43),
      Dot4(a.m31, a.m32, a.m33, a.m34, b.m14, b.m24, b.m34, b.m44),
      Dot4(a.m41, a.m42, a.m43, a.m44, b.m11, b.m21, b.m31, b.m41),
      Dot4(a.m41, a.m42, a.m43, a.m44, b.m12, b.m22, b.m32, b.m42),
      Dot4(a.m41, a.m42, a.m43, a.m44, b.m13, b.m23, b.m33, b.m43),
      Dot4(a.m41, a.m42, a.m43, a.m44, b.m14, b.m24, b.m34, b.m44))
  }

  /** `b` undoes `a` and `a` undoes `b`. */
  predicate Inverts4(a: Mat4, b: Mat4)
  {
    MatMul4(a, b) == Identity4() && MatMul4(b, a) == Identity4()
  }

  /** The matrix built by `mat_inverse`: every cofactor of the adjugate times `s`, which is `1 / det`. */
  function ScaledAdjugate(m: Mat4, s: real): Mat4
  {
    Mat4(
      s * (m.m23 * m.m34 * m.m42 - m.m24 * m.m33 * m.m42 + m.m24 * m.m32 * m.m43
        - m.m22 * m.m34 * m.m43 - m.m23 * m.m32 * m.m44 + m.m22 * m.m33 * m.m44),
      s * (m.m14 * m.m33 * m.m42 - m.m13 * m.m34 * m.m42 - m.m14 * m.m32 * m.m43
        + m.m12 * m.m34 * m.m43 + m.m13 * m.m32 * m.m44 - m.m12 * m.m33 * m.m44),
      s * (m.m13 * m.m24 * m.m42 - m.m14 * m.m23 * m.m42 + m.m14 * m.m22 * m.m43
        - m.m12 * m.m24 * m.m43 - m.m13 * m.m22 * m.m44 + m.m12 * m.m23 * m.m44),
      s * (m.m14 * m.m23 * m.m32 - m.m13 * m.m24 * m.m32 - m.m14 * m.m22 * m.m33
        + m.m12 * m.m24 * m.m33 + m.m13 * m.m22 * m.m34 - m.m12 * m.m23 * m.m34),
      s * (m.m24 * m.m33 * m.m41 - m.m23 * m.m34 * m.m41 - m.m24 * m.m31 * m.m43
        + m.m21 * m.m34 * m.m43 + m.m23 * m.m31 * m.m44 - m.m21 * m.m33 * m.m44),
      s * (m.m13 * m.m34 * m.m41 - m.m14 * m.m33 * m.m41 + m.m14 * m.m31 * m.m43
        - m.m11 * m.m34 * m.m43 - m.m13 * m.m31 * m.m44 + m.m11 * m.m33 * m.m44),
      s * (m.m14 * m.m23 * m.m41 - m.m13 * m.m24 * m.m41 - m.m14 * m.m21 * m.m43
        + m.m11 * m.m24 * m.m43 + m.m13 * m.m21 * m.m44 - m.m11 * m.m23 * m.m44),
      s * (m.m13 * m.m24 * m.m31 - m.m14 * m.m23 * m.m31 + m.m14 * m.m21 * m.m33
        - m.m11 * m.m24 * m.m33 - m.m13 * m.m21 * m.m34 + m.m11 * m.m23 * m.m34),
      s * (m.m22 * m.m34 * m.m41 - m.m24 * m.m32 * m.m41 + m.m24 * m.m31 * m.m42
        - m.m21 * m.m34 * m.m42 - m.m22 * m.m31 * m.m44 + m.m21 * m.m32 * m.m44),
      s * (m.m14 * m.m32 * m.m41 - m.m12 * m.m34 * m.m41 - m.m14 * m.m31 * m.m42
        + m.m11 * m.m34 * m.m42 + m.m12 * m.m31 * m.m44 - m.m11 * m.m32 * m.m44),
      s * (m.m12 * m.m24 * m.m41 - m.m14 * m.m22 * m.m41 + m.m14 * m.m21 * m.m42
        - m.m11 * m.m24 * m.m42 - m.m12 * m.m21 * m.m44 + m.m11 * m.m22 * m.m44),
      s * (m.m14 * m.m22 * m.m31 - m.m12 * m.m24 * m.m31 - m.m14 * m.m21 * m.m32
        + m.m11 * m.m24 * m.m32 + m.m12 * m.m21 * m.m34 - m.m11 * m.m22 * m.m34),
      s * (m.m23 * m.m32 * m.m41 - m.m22 * m.m33 * m.m41 - m.m23 * m.m31 * m.m42
        + m.m21 * m.m33 * m.m42 + m.m22 * m.m31 * m.m43 - m.m21 * m.m32 * m.m43),
      s * (m.m12 * m.m33 * m.m41 - m.m13 * m.m32 * m.m41 + m.m13 * m.m31 * m.m42
        - m.m11 * m.m33 * m.m42 - m.m12 * m.m31 * m.m43 + m.m11 * m.m32 * m.m43),
      s * (m.m13 * m.m22 * m.m41 - m.m12 * m.m23 * m.m41 - m.m13 * m.m21 * m.m42
        + m.m11 * m.m23 * m.m42 + m.m12 * m.m21 * m.m43 - m.m11 * m.m22 * m.m43),
      s * (m.m12 * m.m23 * m.m31 - m.m13 * m.m22 * m.m31 + m.m13 * m.m21 * m.m32
        - m.m11 * m.m23 * m.m32 - m.m12 * m.m21 * m.m33 + m.m11 * m.m22 * m.m33))
  }

  /** `mat_inverse`: none for a singular matrix, else the adjugate divided by the determinant. */
  function MatInverse4(m: Mat4): Option<Mat4>
  {
    var det := m.Determinant();
    if det == 0.0 then None else Some(ScaledAdjugate(m, 1.0 / det))
  }

  lemma MatMul4Identity(a: Mat4)
    ensures MatMul4(Identity4(), a) == a && MatMul4(a, Identity4()) == a
  {
  }

  lemma TransposeLaws(a: Mat4)
    ensures a.Transpose().Transpose() == a
    ensures Identity4().Transpose() == Identity4()
  {
  }

  lemma MatMul4Assoc(a: Mat4, b: Mat4, c: Mat4)
    ensures MatMul4(MatMul4(a, b), c) == MatMul4(a, MatMul4(b, c))
  {
    AssocEntry(a.m11, a.m12, a.m13, a.m14, b.m11, b.m12, b.m13, b.m14, b.m21, b.m22, b.m23, b.m24, b.m31, b.m32, b.m33, b.m34, b.m41, b.m42, b.m43, b.m44, c.m11, c.m21, c.m31, c.m41);
    AssocEntry(a.m11, a.m12, a.m13, a.m14, b.m11, b.m12, b.m13, b.m14, b.m21, b.m22, b.m23, b.m24, b.m31, b.m32, b.m33, b.m34, b.m41, b.m42, b.m43, b.m44, c.m12, c.m22, c.m32, c.m42);
    AssocEntry(a.m11, a.m12, a.m13, a.m14, b.m11, b.m12, b.m13, b.m14, b.m21, b.m22, b.m23, b.m24, b.m31, b.m32, b.m33, b.m34, b.m41, b.m42, b.m43, b.m44, c.m13, c.m23, c.m33, c.m43);
    AssocEntry(a.m11, a.m12, a.m13, a.m14, b.m11, b.m12, b.m13, b.m14, b.m21, b.m22, b.m23, b.m24, b.m31, b.m32, b.m33, b.m34, b.m41, b.m42, b.m43, b.m44, c.m14, c.m24, c.m34, c.m44);
    AssocEntry(a.m21, a.m22, a.m23, a.m24, b.m11, b.m12, b.m13, b.m14, b.m21, b.m22, b.m23, b.m24, b.m31, b.m32, b.m33, b.m34, b.m41, b.m42, b.m43, b.m44, c.m11, c.m21, c.m31, c.m41);
    AssocEntry(a.m21, a.m22, a.m23, a.m24, b.m11, b.m12, b.m13, b.m14, b.m21, b.m22, b.m23, b.m24, b.m31, b.m32, b.m33, b.m34, b.m41, b.m42, b.m43, b.m44, c.m12, c.m22, c.m32, c.m42);
    AssocEntry(a.m21, a.m22, a.m23, a.m24, b.m11, b.m12, b.m13, b.m14, b.m21, b.m22, b.m23, b.m24, b.m31, b.m32, b.m33, b.m34, b.m41, b.m42, b.m43, b.m44, c.m13, c.m23, c.m33, c.m43);
    AssocEntry(a.m21, a.m22, a.m23, a.m24, b.m11, b.m12, b.m13, b.m14, b.m21, b.m22, b.m23, b.m24, b.m31, b.m32, b.m33, b.m34, b.m41, b.m42, b.m43, b.m44, c.m14, c.m24, c.m34, c.m44);
    AssocEntry(a.m31, a.m32, a.m33, a.m34, b.m11, b.m12, b.m13, b.m14, b.m21, b.m22, b.m23, b.m24, b.m31, b.m32, b.m33, b.m34, b.m41, b.m42, b.m43, b.m44, c.m11, c.m21, c.m31, c.m41);
    AssocEntry(a.m31, a.m32, a.m33, a.m34, b.m11, b.m12, b.m13, b.m14, b.m21, b.m22, b.m23, b.m24, b.m31, b.m32, b.m33, b.m34, b.m41, b.m42, b.m43, b.m44, c.m12, c.m22, c.m32, c.m42);
    AssocEntry(a.m31, a.m32, a.m33, a.m34, b.m11, b.m12, b.m13, b.m14, b.m21, b.m22, b.m23, b.m24, b.m31, b.m32, b.m33, b.m34, b.m41, b.m42, b.m43, b.m44, c.m13, c.m23, c.m33, c.m43);
    AssocEntry(a.m31, a.m32, a.m33, a.m34, b.m11, b.m12, b.m13, b.m14, b.m21, b.m22, b.m23, b.m24, b.m31, b.m32, b.m33, b.m34, b.m41, b.m42, b.m43, b.m44, c.m14, c.m24, c.m34, c.m44);
    AssocEntry(a.m41, a.m42, a.m43, a.m44, b.m11, b.m12, b.m13, b.m14, b.m21, b.m22, b.m23, b.m24, b.m31, b.m32, b.m33, b.m34, b.m41, b.m42, b.m43, b.m44, c.m11, c.m21, c.m31, c.m41);
    AssocEntry(a.m41, a.m42, a.m43, a.m44, b.m11, b.m12, b.m13, b.m14, b.m21, b.m22, b.m23, b.m24, b.m31, b.m32, b.m33, b.m34, b.m41, b.m42, b.m43, b.m44, c.m12, c.m22, c.m32, c.m42);
    AssocEntry(a.m41, a.m42, a.m43, a.m44, b.m11, b.m12, b.m13, b.m14, b.m21, b.m22, b.m23, b.m24, b.m31, b.m32, b.m33, b.m34, b.m41, b.m42, b.m43, b.m44, c.m13, c.m23, c.m33, c.m43);
    AssocEntry(a.m41, a.m42, a.m43, a.m44, b.m11, b.m12, b.m13, b.m14, b.m21, b.m22, b.m23, b.m24, b.m31, b.m32, b.m33, b.m34, b.m41, b.m42, b.m43, b.m44, c.m14, c.m24, c.m34, c.m44);
  }

  /** One entry of associativity: (a b) c and a (b c) agree on a row of `a` and a column of `c`. */
  lemma AssocEntry(a1: real, a2: real, a3: real, a4: real, b11: real, b12: real, b13: real, b14: real, b21: real, b22: real, b23: real, b24: real, b31: real, b32: real, b33: real, b34: real, b41: real, b42: real, b43: real, b44: real, c1: real, c2: real, c3: real, c4: real)
    ensures Dot4(Dot4(a1, a2, a3, a4, b11, b21, b31, b41), Dot4(a1, a2, a3, a4, b12, b22, b32, b42), Dot4(a1, a2, a3, a4, b13, b23, b33, b43), Dot4(a1, a2, a3, a4, b14, b24, b34, b44), c1, c2, c3, c4)
      == Dot4(a1, a2, a3, a4, Dot4(b11, b12, b13, b14, c1, c2, c3, c4), Dot4(b21, b22, b23, b24, c1, c2, c3, c4), Dot4(b31, b32, b33, b34, c1, c2, c3, c4), Dot4(b41, b42, b43, b44, c1, c2, c3, c4))
  {
    ExpandLeft(a1, a2, a3, a4, b11, b12, b13, b14, b21, b22, b23, b24, b31, b32, b33, b34, b41, b42, b43, b44, c1, c2, c3, c4);
    ExpandRight(a1, a2, a3, a4, b11, b12, b13, b14, b21, b22, b23, b24, b31, b32, b33, b34, b41, b42, b43, b44, c1, c2, c3, c4);
  }

  lemma ExpandLeft(a1: real, a2: real, a3: real, a4: real, b11: real, b12: real, b13: real, b14: real, b21: real, b22: real, b23: real, b24: real, b31: real, b32: real, b33: real, b34: real, b41: real, b42: real, b43: real, b44: real, c1: real, c2: real, c3: real, c4: real)
    ensures Dot4(Dot4(a1, a2, a3, a4, b11, b21, b31, b41), Dot4(a1, a2, a3, a4, b12, b22, b32, b42), Dot4(a1, a2, a3, a4, b13, b23, b33, b43), Dot4(a1, a2, a3, a4, b14, b24, b34, b44), c1, c2, c3, c4)
      == a1 * b11 * c1 + a1 * b12 * c2 + a1 * b13 * c3 + a1 * b14 * c4 + a2 * b21 * c1
         + a2 * b22 * c2 + a2 * b23 * c3 + a2 * b24 * c4 + a3 * b31 * c1 + a3 * b32 * c2
         + a3 * b33 * c3 + a3 * b34 * c4 + a4 * b41 * c1 + a4 * b42 * c2 + a4 * b43 * c3
         + a4 * b44 * c4
  {
    ProductsLeft(a1, a2, a3, a4, b11, b12, b13, b14, b21, b22, b23, b24, b31, b32, b33, b34, b41, b42, b43, b44, c1, c2, c3, c4,
      Dot4(a1, a2, a3, a4, b11, b21, b31, b41),
      Dot4(a1, a2, a3, a4, b12, b22, b32, b42),
      Dot4(a1, a2, a3, a4, b13, b23, b33, b43),
      Dot4(a1, a2, a3, a4, b14, b24, b34, b44));
  }

  lemma ExpandRight(a1: real, a2: real, a3: real, a4: real, b11: real, b12: real, b13: real, b14: real, b21: real, b22: real, b23: real, b24: real, b31: real, b32: real, b33: real, b34: real, b41: real, b42: real, b43: real, b44: real, c1: real, c2: real, c3: real, c4: real)
    ensures Dot4(a1, a2, a3, a4, Dot4(b11, b12, b13, b14, c1, c2, c3, c4), Dot4(b21, b22, b23, b24, c1, c2, c3, c4), Dot4(b31, b32, b33, b34, c1, c2, c3, c4), Dot4(b41, b42, b43, b44, c1, c2, c3, c4))
      == a1 * b11 * c1 + a1 * b12 * c2 + a1 * b13 * c3 + a1 * b14 * c4 + a2 * b21 * c1
         + a2 * b22 * c2 + a2 * b23 * c3 + a2 * b24 * c4 + a3 * b31 * c1 + a3 * b32 * c2
         + a3 * b33 * c3 + a3 * b34 * c4 + a4 * b41 * c1 + a4 * b42 * c2 + a4 * b43 * c3
         + a4 * b44 * c4
  {
    ProductsRight(a1, a2, a3, a4, b11, b12, b13, b14, b21, b22, b23, b24, b31, b32, b33, b34, b41, b42, b43, b44, c1, c2, c3, c4,
      Dot4(b11, b12, b13, b14, c1, c2, c3, c4),
      Dot4(b21, b22, b23, b24, c1, c2, c3, c4),
      Dot4(b31, b32, b33, b34, c1, c2, c3, c4),
      Dot4(b41, b42, b43, b44, c1, c2, c3, c4));
  }

  lemma ProductsLeft(a1: real, a2: real, a3: real, a4: real, b11: real, b12: real, b13: real, b14: real, b21: real, b22: real, b23: real, b24: real, b31: real, b32: real, b33: real, b34: real, b41: real, b42: real, b43: real, b44: real, c1: real, c2: real, c3: real, c4: real, x1: real, x2: real, x3: real, x4: real)
    requires x1 == a1 * b11 + a2 * b21 + a3 * b31 + a4 * b41
    requires x2 == a1 * b12 + a2 * b22 + a3 * b32 + a4 * b42
    requires x3 == a1 * b13 + a2 * b23 + a3 * b33 + a4 * b43
    requires x4 == a1 * b14 + a2 * b24 + a3 * b34 + a4 * b44
    ensures x1 * c1 + x2 * c2 + x3 * c3 + x4 * c4
      == a1 * b11 * c1 + a1 * b12 * c2 + a1 * b13 * c3 + a1 * b14 * c4 + a2 * b21 * c1
         + a2 * b22 * c2 + a2 * b23 * c3 + a2 * b24 * c4 + a3 * b31 * c1 + a3 * b32 * c2
         + a3 * b33 * c3 + a3 * b34 * c4 + a4 * b41 * c1 + a4 * b42 * c2 + a4 * b43 * c3
         + a4 * b44 * c4
  {
  }

  lemma ProductsRight(a1: real, a2: real, a3: real, a4: real, b11: real, b12: real, b13: real, b14: real, b21: real, b22: real, b23: real, b24: real, b31: real, b32: real, b33: real, b34: real, b41: real, b42: real, b43: real, b44: real, c1: real, c2: real, c3: real, c4: real, y1: real, y2: real, y3: real, y4: real)
    requires y1 == b11 * c1 + b12 * c2 + b13 * c3 + b14 * c4
    requires y2 == b21 * c1 + b22 * c2 + b23 * c3 + b24 * c4
    requires y3 == b31 * c1 + b32 * c2 + b33 * c3 + b34 * c4
    requires y4 == b41 * c1 + b42 * c2 + b43 * c3 + b44 * c4
    ensures a1 * y1 + a2 * y2 + a3 * y3 + a4 * y4
      == a1 * b11 * c1 + a1 * b12 * c2 + a1 * b13 * c3 + a1 * b14 * c4 + a2 * b21 * c1
         + a2 * b22 * c2 + a2 * b23 * c3 + a2 * b24 * c4 + a3 * b31 * c1 + a3 * b32 * c2
         + a3 * b33 * c3 + a3 * b34 * c4 + a4 * b41 * c1 + a4 * b42 * c2 + a4 * b43 * c3
         + a4 * b44 * c4
  {
  }

  /** Inverse pairs compose in reverse order, as `Transform3 * Transform3` computes `mat_inv`. */
  lemma Inverts4Compose(m1: Mat4, i1: Mat4, m2: Mat4, i2: Mat4)
    requires Inverts4(m1, i1) && Inverts4(m2, i2)
    ensures Inverts4(MatMul4(m1, m2), MatMul4(i2, i1))
  {
    MatMul4Assoc(MatMul4(m1, m2), i2, i1);
    MatMul4Assoc(m1, m2, i2);
    MatMul4Identity(m1);
    MatMul4Assoc(MatMul4(i2, i1), m1, m2);
    MatMul4Assoc(i2, i1, m1);
    MatMul4Identity(i2);
  }

  /** `mat_inverse` fails exactly on singular matrices, and otherwise returns a two-sided inverse. */
  lemma MatInverse4Correct(m: Mat4)
    ensures MatInverse4(m).None? <==> m.Determinant() == 0.0
    ensures MatInverse4(m).Some? ==> Inverts4(m, MatInverse4(m).value)
  {
    if m.Determinant() != 0.0 {
      var s := 1.0 / m.Determinant();
      InverseRight(m, s);
      InverseLeft(m, s);
    }
  }

  lemma InverseRight(m: Mat4, s: real)
    requires s * m.Determinant() == 1.0
    ensures MatMul4(m, ScaledAdjugate(m, s)) == Identity4()
  {
    AdjugateEntry11(m, s);
    AdjugateEntry12(m, s);
    AdjugateEntry13(m, s);
    AdjugateEntry14(m, s);
    AdjugateEntry21(m, s);
    AdjugateEntry22(m, s);
    AdjugateEntry23(m, s);
    AdjugateEntry24(m, s);
    AdjugateEntry31(m, s);
    AdjugateEntry32(m, s);
    AdjugateEntry33(m, s);
    AdjugateEntry34(m, s);
    AdjugateEntry41(m, s);
    AdjugateEntry42(m, s);
    AdjugateEntry43(m, s);
    AdjugateEntry44(m, s);
    InverseRightEntries(m, ScaledAdjugate(m, s), s);
  }

  lemma AdjugateEntry11(m: Mat4, s: real)
    ensures ScaledAdjugate(m, s).m11 == s * (m.m23 * m.m34 * m.m42 - m.m24 * m.m33 * m.m42 + m.m24 * m.m32 * m.m43
        - m.m22 * m.m34 * m.m43 - m.m23 * m.m32 * m.m44 + m.m22 * m.m33 * m.m44)
  {
  }

  lemma AdjugateEntry12(m: Mat4, s: real)
    ensures ScaledAdjugate(m, s).m12 == s * (m.m14 * m.m33 * m.m42 - m.m13 * m.m34 * m.m42 - m.m14 * m.m32 * m.m43
        + m.m12 * m.m34 * m.m43 + m.m13 * m.m32 * m.m44 - m.m12 * m.m33 * m.m44)
  {
  }

  lemma AdjugateEntry13(m: Mat4, s: real)
    ensures ScaledAdjugate(m, s).m13 == s * (m.m13 * m.m24 * m.m42 - m.m14 * m.m23 * m.m42 + m.m14 * m.m22 * m.m43
        - m.m12 * m.m24 * m.m43 - m.m13 * m.m22 * m.m44 + m.m12 * m.m23 * m.m44)
  {
  }

  lemma AdjugateEntry14(m: Mat4, s: real)
    ensures ScaledAdjugate(m, s).m14 == s * (m.m14 * m.m23 * m.m32 - m.m13 * m.m24 * m.m32 - m.m14 * m.m22 * m.m33
        + m.m12 * m.m24 * m.m33 + m.m13 * m.m22 * m.m34 - m.m12 * m.m23 * m.m34)
  {
  }

  lemma AdjugateEntry21(m: Mat4, s: real)
    ensures ScaledAdjugate(m, s).m21 == s * (m.m24 * m.m33 * m.m41 - m.m23 * m.m34 * m.m41 - m.m24 * m.m31 * m.m43
        + m.m21 * m.m34 * m.m43 + m.m23 * m.m31 * m.m44 - m.m21 * m.m33 * m.m44)
  {
  }

  lemma AdjugateEntry22(m: Mat4, s: real)
    ensures ScaledAdjugate(m, s).m22 == s * (m.m13 * m.m34 * m.m41 - m.m14 * m.m33 * m.m41 + m.m14 * m.m31 * m.m43
        - m.m11 * m.m34 * m.m43 - m.m13 * m.m31 * m.m44 + m.m11 * m.m33 * m.m44)
  {
  }

  lemma AdjugateEntry23(m: Mat4, s: real)
    ensures ScaledAdjugate(m, s).m23 == s * (m.m14 * m.m23 * m.m41 - m.m13 * m.m24 * m.m41 - m.m14 * m.m21 * m.m43
        + m.m11 * m.m24 * m.m43 + m.m13 * m.m21 * m.m44 - m.m11 * m.m23 * m.m44)
  {
  }

  lemma AdjugateEntry24(m: Mat4, s: real)
    ensures ScaledAdjugate(m, s).m24 == s * (m.m13 * m.m24 * m.m31 - m.m14 * m.m23 * m.m31 + m.m14 * m.m21 * m.m33
        - m.m11 * m.m24 * m.m33 - m.m13 * m.m21 * m.m34 + m.m11 * m.m23 * m.m34)
  {
  }

  lemma AdjugateEntry31(m: Mat4, s: real)
    ensures ScaledAdjugate(m, s).m31 == s * (m.m22 * m.m34 * m.m41 - m.m24 * m.m32 * m.m41 + m.m24 * m.m31 * m.m42
        - m.m21 * m.m34 * m.m42 - m.m22 * m.m31 * m.m44 + m.m21 * m.m32 * m.m44)
  {
  }

  lemma AdjugateEntry32(m: Mat4, s: real)
    ensures ScaledAdjugate(m, s).m32 == s * (m.m14 * m.m32 * m.m41 - m.m12 * m.m34 * m.m41 - m.m14 * m.m31 * m.m42
        + m.m11 * m.m34 * m.m42 + m.m12 * m.m31 * m.m44 - m.m11 * m.m32 * m.m44)
  {
  }

  lemma AdjugateEntry33(m: Mat4, s: real)
    ensures ScaledAdjugate(m, s).m33 == s * (m.m12 * m.m24 * m.m41 - m.m14 * m.m22 * m.m41 + m.m14 * m.m21 * m.m42
        - m.m11 * m.m24 * m.m42 - m.m12 * m.m21 * m.m44 + m.m11 * m.m22 * m.m44)
  {
  }

  lemma AdjugateEntry34(m: Mat4, s: real)
    ensures ScaledAdjugate(m, s).m34 == s * (m.m14 * m.m22 * m.m31 - m.m12 * m.m24 * m.m31 - m.m14 * m.m21 * m.m32
        + m.m11 * m.m24 * m.m32 + m.m12 * m.m21 * m.m34 - m.m11 * m.m22 * m.m34)
  {
  }

  lemma AdjugateEntry41(m: Mat4, s: real)
    ensures ScaledAdjugate(m, s).m41 == s * (m.m23 * m.m32 * m.m41 - m.m22 * m.m33 * m.m41 - m.m23 * m.m31 * m.m42
        + m.m21 * m.m33 * m.m42 + m.m22 * m.m31 * m.m43 - m.m21 * m.m32 * m.m43)
  {
  }

  lemma AdjugateEntry42(m: Mat4, s: real)
    ensures ScaledAdjugate(m, s).m42 == s * (m.m12 * m.m33 * m.m41 - m.m13 * m.m32 * m.m41 + m.m13 * m.m31 * m.m42
        - m.m11 * m.m33 * m.m42 - m.m12 * m.m31 * m.m43 + m.m11 * m.m32 * m.m43)
  {
  }

  lemma AdjugateEntry43(m: Mat4, s: real)
    ensures ScaledAdjugate(m, s).m43 == s * (m.m13 * m.m22 * m.m41 - m.m12 * m.m23 * m.m41 - m.m13 * m.m21 * m.m42
        + m.m11 * m.m23 * m.m42 + m.m12 * m.m21 * m.m43 - m.m11 * m.m22 * m.m43)
  {
  }

  lemma AdjugateEntry44(m: Mat4, s: real)
    ensures ScaledAdjugate(m, s).m44 == s * (m.m12 * m.m23 * m.m31 - m.m13 * m.m22 * m.m31 + m.m13 * m.m21 * m.m32
        - m.m11 * m.m23 * m.m32 - m.m12 * m.m21 * m.m33 + m.m11 * m.m22 * m.m33)
  {
  }

  lemma InverseRightEntries(m: Mat4, inv: Mat4, s: real)
    requires s * m.Determinant() == 1.0
    requires inv.m11 == s * (m.m23 * m.m34 * m.m42 - m.m24 * m.m33 * m.m42 + m.m24 * m.m32 * m.m43
        - m.m22 * m.m34 * m.m43 - m.m23 * m.m32 * m.m44 + m.m22 * m.m33 * m.m44)
    requires inv.m12 == s * (m.m14 * m.m33 * m.m42 - m.m13 * m.m34 * m.m42 - m.m14 * m.m32 * m.m43
        + m.m12 * m.m34 * m.m43 + m.m13 * m.m32 * m.m44 - m.m12 * m.m33 * m.m44)
    requires inv.m13 == s * (m.m13 * m.m24 * m.m42 - m.m14 * m.m23 * m.m42 + m.m14 * m.m22 * m.m43
        - m.m12 * m.m24 * m.m43 - m.m13 * m.m22 * m.m44 + m.m12 * m.m23 * m.m44)
    requires inv.m14 == s * (m.m14 * m.m23 * m.m32 - m.m13 * m.m24 * m.m32 - m.m14 * m.m22 * m.m33
        + m.m12 * m.m24 * m.m33 + m.m13 * m.m22 * m.m34 - m.m12 * m.m23 * m.m34)
    requires inv.m21 == s * (m.m24 * m.m33 * m.m41 - m.m23 * m.m34 * m.m41 - m.m24 * m.m31 * m.m43
        + m.m21 * m.m34 * m.m43 + m.m23 * m.m31 * m.m44 - m.m21 * m.m33 * m.m44)
    requires inv.m22 == s * (m.m13 * m.m34 * m.m41 - m.m14 * m.m33 * m.m41 + m.m14 * m.m31 * m.m43
        - m.m11 * m.m34 * m.m43 - m.m13 * m.m31 * m.m44 + m.m11 * m.m33 * m.m44)
    requires inv.m23 == s * (m.m14 * m.m23 * m.m41 - m.m13 * m.m24 * m.m41 - m.m14 * m.m21 * m.m43
        + m.m11 * m.m24 * m.m43 + m.m13 * m.m21 * m.m44 - m.m11 * m.m23 * m.m44)
    requires inv.m24 == s * (m.m13 * m.m24 * m.m31 - m.m14 * m.m23 * m.m31 + m.m14 * m.m21 * m.m33
        - m.m11 * m.m24 * m.m33 - m.m13 * m.m21 * m.m34 + m.m11 * m.m23 * m.m34)
    requires inv.m31 == s * (m.m22 * m.m34 * m.m41 - m.m24 * m.m32 * m.m41 + m.m24 * m.m31 * m.m42
        - m.m21 * m.m34 * m.m42 - m.m22 * m.m31 * m.m44 + m.m21 * m.m32 * m.m44)
    requires inv.m32 == s * (m.m14 * m.m32 * m.m41 - m.m12 * m.m34 * m.m41 - m.m14 * m.m31 * m.m42
        + m.m11 * m.m34 * m.m42 + m.m12 * m.m31 * m.m44 - m.m11 * m.m32 * m.m44)
    requires inv.m33 == s * (m.m12 * m.m24 * m.m41 - m.m14 * m.m22 * m.m41 + m.m14 * m.m21 * m.m42
        - m.m11 * m.m24 * m.m42 - m.m12 * m.m21 * m.m44 + m.m11 * m.m22 * m.m44)
    requires inv.m34 == s * (m.m14 * m.m22 * m.m31 - m.m12 * m.m24 * m.m31 - m.m14 * m.m21 * m.m32
        + m.m11 * m.m24 * m.m32 + m.m12 * m.m21 * m.m34 - m.m11 * m.m22 * m.m34)
    requires inv.m41 == s * (m.m23 * m.m32 * m.m41 - m.m22 * m.m33 * m.m41 - m.m23 * m.m31 * m.m42
        + m.m21 * m.m33 * m.m42 + m.m22 * m.m31 * m.m43 - m.m21 * m.m32 * m.m43)
    requires inv.m42 == s * (m.m12 * m.m33 * m.m41 - m.m13 * m.m32 * m.m41 + m.m13 * m.m31 * m.m42
        - m.m11 * m.m33 * m.m42 - m.m12 * m.m31 * m.m43 + m.m11 * m.m32 * m.m43)
    requires inv.m43 == s * (m.m13 * m.m22 * m.m41 - m.m12 * m.m23 * m.m41 - m.m13 * m.m21 * m.m42
        + m.m11 * m.m23 * m.m42 + m.m12 * m.m21 * m.m43 - m.m11 * m.m22 * m.m43)
    requires inv.m44 == s * (m.m12 * m.m23 * m.m31 - m.m13 * m.m22 * m.m31 + m.m13 * m.m21 * m.m32
        - m.m11 * m.m23 * m.m32 - m.m12 * m.m21 * m.m33 + m.m11 * m.m22 * m.m33)
    ensures MatMul4(m, inv) == Identity4()
  {
    RightEntry11(m, s);
    RightEntry12(m, s);
    RightEntry13(m, s);
    RightEntry14(m, s);
    RightEntry21(m, s);
    RightEntry22(m, s);
    RightEntry23(m, s);
    RightEntry24(m, s);
    RightEntry31(m, s);
    RightEntry32(m, s);
    RightEntry33(m, s);
    RightEntry34(m, s);
    RightEntry41(m, s);
    RightEntry42(m, s);
    RightEntry43(m, s);
    RightEntry44(m, s);
  }

  lemma InverseLeft(m: Mat4, s: real)
    requires s * m.Determinant() == 1.0
    ensures MatMul4(ScaledAdjugate(m, s), m) == Identity4()
  {
    AdjugateEntry11(m, s);
    AdjugateEntry12(m, s);
    AdjugateEntry13(m, s);
    AdjugateEntry14(m, s);
    AdjugateEntry21(m, s);
    AdjugateEntry22(m, s);
    AdjugateEntry23(m, s);
    AdjugateEntry24(m, s);
    AdjugateEntry31(m, s);
    AdjugateEntry32(m, s);
    AdjugateEntry33(m, s);
    AdjugateEntry34(m, s);
    AdjugateEntry41(m, s);
    AdjugateEntry42(m, s);
    AdjugateEntry43(m, s);
    AdjugateEntry44(m, s);
    InverseLeftEntries(m, ScaledAdjugate(m, s), s);
  }

  lemma InverseLeftEntries(m: Mat4, inv: Mat4, s: real)
    requires s * m.Determinant() == 1.0
    requires inv.m11 == s * (m.m23 * m.m34 * m.m42 - m.m24 * m.m33 * m.m42 + m.m24 * m.m32 * m.m43
        - m.m22 * m.m34 * m.m43 - m.m23 * m.m32 * m.m44 + m.m22 * m.m33 * m.m44)
    requires inv.m12 == s * (m.m14 * m.m33 * m.m42 - m.m13 * m.m34 * m.m42 - m.m14 * m.m32 * m.m43
        + m.m12 * m.m34 * m.m43 + m.m13 * m.m32 * m.m44 - m.m12 * m.m33 * m.m44)
    requires inv.m13 == s * (m.m13 * m.m24 * m.m42 - m.m14 * m.m23 * m.m42 + m.m14 * m.m22 * m.m43
        - m.m12 * m.m24 * m.m43 - m.m13 * m.m22 * m.m44 + m.m12 * m.m23 * m.m44)
    requires inv.m14 == s * (m.m14 * m.m23 * m.m32 - m.m13 * m.m24 * m.m32 - m.m14 * m.m22 * m.m33
        + m.m12 * m.m24 * m.m33 + m.m13 * m.m22 * m.m34 - m.m12 * m.m23 * m.m34)
    requires inv.m21 == s * (m.m24 * m.m33 * m.m41 - m.m23 * m.m34 * m.m41 - m.m24 * m.m31 * m.m43
        + m.m21 * m.m34 * m.m43 + m.m23 * m.m31 * m.m44 - m.m21 * m.m33 * m.m44)
    requires inv.m22 == s * (m.m13 * m.m34 * m.m41 - m.m14 * m.m33 * m.m41 + m.m14 * m.m31 * m.m43
        - m.m11 * m.m34 * m.m43 - m.m13 * m.m31 * m.m44 + m.m11 * m.m33 * m.m44)
    requires inv.m23 == s * (m.m14 * m.m23 * m.m41 - m.m13 * m.m24 * m.m41 - m.m14 * m.m21 * m.m43
        + m.m11 * m.m24 * m.m43 + m.m13 * m.m21 * m.m44 - m.m11 * m.m23 * m.m44)
    requires inv.m24 == s * (m.m13 * m.m24 * m.m31 - m.m14 * m.m23 * m.m31 + m.m14 * m.m21 * m.m33
        - m.m11 * m.m24 * m.m33 - m.m13 * m.m21 * m.m34 + m.m11 * m.m23 * m.m34)
    requires inv.m31 == s * (m.m22 * m.m34 * m.m41 - m.m24 * m.m32 * m.m41 + m.m24 * m.m31 * m.m42
        - m.m21 * m.m34 * m.m42 - m.m22 * m.m31 * m.m44 + m.m21 * m.m32 * m.m44)
    requires inv.m32 == s * (m.m14 * m.m32 * m.m41 - m.m12 * m.m34 * m.m41 - m.m14 * m.m31 * m.m42
        + m.m11 * m.m34 * m.m42 + m.m12 * m.m31 * m.m44 - m.m11 * m.m32 * m.m44)
    requires inv.m33 == s * (m.m12 * m.m24 * m.m41 - m.m14 * m.m22 * m.m41 + m.m14 * m.m21 * m.m42
        - m.m11 * m.m24 * m.m42 - m.m12 * m.m21 * m.m44 + m.m11 * m.m22 * m.m44)
    requires inv.m34 == s * (m.m14 * m.m22 * m.m31 - m.m12 * m.m24 * m.m31 - m.m14 * m.m21 * m.m32
        + m.m11 * m.m24 * m.m32 + m.m12 * m.m21 * m.m34 - m.m11 * m.m22 * m.m34)
    requires inv.m41 == s * (m.m23 * m.m32 * m.m41 - m.m22 * m.m33 * m.m41 - m.m23 * m.m31 * m.m42
        + m.m21 * m.m33 * m.m42 + m.m22 * m.m31 * m.m43 - m.m21 * m.m32 * m.m43)
    requires inv.m42 == s * (m.m12 * m.m33 * m.m41 - m.m13 * m.m32 * m.m41 + m.m13 * m.m31 * m.m42
        - m.m11 * m.m33 * m.m42 - m.m12 * m.m31 * m.m43 + m.m11 * m.m32 * m.m43)
    requires inv.m43 == s * (m.m13 * m.m22 * m.m41 - m.m12 * m.m23 * m.m41 - m.m13 * m.m21 * m.m42
        + m.m11 * m.m23 * m.m42 + m.m12 * m.m21 * m.m43 - m.m11 * m.m22 * m.m43)
    requires inv.m44 == s * (m.m12 * m.m23 * m.m31 - m.m13 * m.m22 * m.m31 + m.m13 * m.m21 * m.m32
        - m.m11 * m.m23 * m.m32 - m.m12 * m.m21 * m.m33 + m.m11 * m.m22 * m.m33)
    ensures MatMul4(inv, m) == Identity4()
  {
    LeftEntry11(m, s);
    LeftEntry12(m, s);
    LeftEntry13(m, s);
    LeftEntry14(m, s);
    LeftEntry21(m, s);
    LeftEntry22(m, s);
    LeftEntry23(m, s);
    LeftEntry24(m, s);
    LeftEntry31(m, s);
    LeftEntry32(m, s);
    LeftEntry33(m, s);
    LeftEntry34(m, s);
    LeftEntry41(m, s);
    LeftEntry42(m, s);
    LeftEntry43(m, s);
    LeftEntry44(m, s);
  }

  // Entry (i, j) of m * adj(m) and of adj(m) * m: the determinant on the diagonal, zero elsewhere.

  lemma RightEntry11(m: Mat4, s: real)
    requires s * m.Determinant() == 1.0
    ensures Dot4(m.m11, m.m12, m.m13, m.m14,
      s * (m.m23 * m.m34 * m.m42 - m.m24 * m.m33 * m.m42 + m.m24 * m.m32 * m.m43
        - m.m22 * m.m34 * m.m43 - m.m23 * m.m32 * m.m44 + m.m22 * m.m33 * m.m44),
      s * (m.m24 * m.m33 * m.m41 - m.m23 * m.m34 * m.m41 - m.m24 * m.m31 * m.m43
        + m.m21 * m.m34 * m.m43 + m.m23 * m.m31 * m.m44 - m.m21 * m.m33 * m.m44),
      s * (m.m22 * m.m34 * m.m41 - m.m24 * m.m32 * m.m41 + m.m24 * m.m31 * m.m42
        - m.m21 * m.m34 * m.m42 - m.m22 * m.m31 * m.m44 + m.m21 * m.m32 * m.m44),
      s * (m.m23 * m.m32 * m.m41 - m.m22 * m.m33 * m.m41 - m.m23 * m.m31 * m.m42
        + m.m21 * m.m33 * m.m42 + m.m22 * m.m31 * m.m43 - m.m21 * m.m32 * m.m43))
      == 1.0
  {
  }

  lemma RightEntry12(m: Mat4, s: real)
    ensures Dot4(m.m11, m.m12, m.m13, m.m14,
      s * (m.m14 * m.m33 * m.m42 - m.m13 * m.m34 * m.m42 - m.m14 * m.m32 * m.m43
        + m.m12 * m.m34 * m.m43 + m.m13 * m.m32 * m.m44 - m.m12 * m.m33 * m.m44),
      s * (m.m13 * m.m34 * m.m41 - m.m14 * m.m33 * m.m41 + m.m14 * m.m31 * m.m43
        - m.m11 * m.m34 * m.m43 - m.m13 * m.m31 * m.m44 + m.m11 * m.m33 * m.m44),
      s * (m.m14 * m.m32 * m.m41 - m.m12 * m.m34 * m.m41 - m.m14 * m.m31 * m.m42
        + m.m11 * m.m34 * m.m42 + m.m12 * m.m31 * m.m44 - m.m11 * m.m32 * m.m44),
      s * (m.m12 * m.m33 * m.m41 - m.m13 * m.m32 * m.m41 + m.m13 * m.m31 * m.m42
        - m.m11 * m.m33 * m.m42 - m.m12 * m.m31 * m.m43 + m.m11 * m.m32 * m.m43))
      == 0.0
  {
  }

  lemma RightEntry13(m: Mat4, s: real)
    ensures Dot4(m.m11, m.m12, m.m13, m.m14,
      s * (m.m13 * m.m24 * m.m42 - m.m14 * m.m23 * m.m42 + m.m14 * m.m22 * m.m43
        - m.m12 * m.m24 * m.m43 - m.m13 * m.m22 * m.m44 + m.m12 * m.m23 * m.m44),
      s * (m.m14 * m.m23 * m.m41 - m.m13 * m.m24 * m.m41 - m.m14 * m.m21 * m.m43
        + m.m11 * m.m24 * m.m43 + m.m13 * m.m21 * m.m44 - m.m11 * m.m23 * m.m44),
      s * (m.m12 * m.m24 * m.m41 - m.m14 * m.m22 * m.m41 + m.m14 * m.m21 * m.m42
        - m.m11 * m.m24 * m.m42 - m.m12 * m.m21 * m.m44 + m.m11 * m.m22 * m.m44),
      s * (m.m13 * m.m22 * m.m41 - m.m12 * m.m23 * m.m41 - m.m13 * m.m21 * m.m42
        + m.m11 * m.m23 * m.m42 + m.m12 * m.m21 * m.m43 - m.m11 * m.m22 * m.m43))
      == 0.0
  {
  }

  lemma RightEntry14(m: Mat4, s: real)
    ensures Dot4(m.m11, m.m12, m.m13, m.m14,
      s * (m.m14 * m.m23 * m.m32 - m.m13 * m.m24 * m.m32 - m.m14 * m.m22 * m.m33
        + m.m12 * m.m24 * m.m33 + m.m13 * m.m22 * m.m34 - m.m12 * m.m23 * m.m34),
      s * (m.m13 * m.m24 * m.m31 - m.m14 * m.m23 * m.m31 + m.m14 * m.m21 * m.m33
        - m.m11 * m.m24 * m.m33 - m.m13 * m.m21 * m.m34 + m.m11 * m.m23 * m.m34),
      s * (m.m14 * m.m22 * m.m31 - m.m12 * m.m24 * m.m31 - m.m14 * m.m21 * m.m32
        + m.m11 * m.m24 * m.m32 + m.m12 * m.m21 * m.m34 - m.m11 * m.m22 * m.m34),
      s * (m.m12 * m.m23 * m.m31 - m.m13 * m.m22 * m.m31 + m.m13 * m.m21 * m.m32
        - m.m11 * m.m23 * m.m32 - m.m12 * m.m21 * m.m33 + m.m11 * m.m22 * m.m33))
      == 0.0
  {
  }

  lemma RightEntry21(m: Mat4, s: real)
    ensures Dot4(m.m21, m.m22, m.m23, m.m24,
      s * (m.m23 * m.m34 * m.m42 - m.m24 * m.m33 * m.m42 + m.m24 * m.m32 * m.m43
        - m.m22 * m.m34 * m.m43 - m.m23 * m.m32 * m.m44 + m.m22 * m.m33 * m.m44),
      s * (m.m24 * m.m33 * m.m41 - m.m23 * m.m34 * m.m41 - m.m24 * m.m31 * m.m43
        + m.m21 * m.m34 * m.m43 + m.m23 * m.m31 * m.m44 - m.m21 * m.m33 * m.m44),
      s * (m.m22 * m.m34 * m.m41 - m.m24 * m.m32 * m.m41 + m.m24 * m.m31 * m.m42
        - m.m21 * m.m34 * m.m42 - m.m22 * m.m31 * m.m44 + m.m21 * m.m32 * m.m44),
      s * (m.m23 * m.m32 * m.m41 - m.m22 * m.m33 * m.m41 - m.m23 * m.m31 * m.m42
        + m.m21 * m.m33 * m.m42 + m.m22 * m.m31 * m.m43 - m.m21 * m.m32 * m.m43))
      == 0.0
  {
  }

  lemma RightEntry22(m: Mat4, s: real)
    requires s * m.Determinant() == 1.0
    ensures Dot4(m.m21, m.m22, m.m23, m.m24,
      s * (m.m14 * m.m33 * m.m42 - m.m13 * m.m34 * m.m42 - m.m14 * m.m32 * m.m43
        + m.m12 * m.m34 * m.m43 + m.m13 * m.m32 * m.m44 - m.m12 * m.m33 * m.m44),
      s * (m.m13 * m.m34 * m.m41 - m.m14 * m.m33 * m.m41 + m.m14 * m.m31 * m.m43
        - m.m11 * m.m34 * m.m43 - m.m13 * m.m31 * m.m44 + m.m11 * m.m33 * m.m44),
      s * (m.m14 * m.m32 * m.m41 - m.m12 * m.m34 * m.m41 - m.m14 * m.m31 * m.m42
        + m.m11 * m.m34 * m.m42 + m.m12 * m.m31 * m.m44 - m.m11 * m.m32 * m.m44),
      s * (m.m12 * m.m33 * m.m41 - m.m13 * m.m32 * m.m41 + m.m13 * m.m31 * m.m42
        - m.m11 * m.m33 * m.m42 - m.m12 * m.m31 * m.m43 + m.m11 * m.m32 * m.m43))
      == 1.0
  {
  }

  lemma RightEntry23(m: Mat4, s: real)
    ensures Dot4(m.m21, m.m22, m.m23, m.m24,
      s * (m.m13 * m.m24 * m.m42 - m.m14 * m.m23 * m.m42 + m.m14 * m.m22 * m.m43
        - m.m12 * m.m24 * m.m43 - m.m13 * m.m22 * m.m44 + m.m12 * m.m23 * m.m44),
      s * (m.m14 * m.m23 * m.m41 - m.m13 * m.m24 * m.m41 - m.m14 * m.m21 * m.m43
        + m.m11 * m.m24 * m.m43 + m.m13 * m.m21 * m.m44 - m.m11 * m.m23 * m.m44),
      s * (m.m12 * m.m24 * m.m41 - m.m14 * m.m22 * m.m41 + m.m14 * m.m21 * m.m42
        - m.m11 * m.m24 * m.m42 - m.m12 * m.m21 * m.m44 + m.m11 * m.m22 * m.m44),
      s * (m.m13 * m.m22 * m.m41 - m.m12 * m.m23 * m.m41 - m.m13 * m.m21 * m.m42
        + m.m11 * m.m23 * m.m42 + m.m12 * m.m21 * m.m43 - m.m11 * m.m22 * m.m43))
      == 0.0
  {
  }

  lemma RightEntry24(m: Mat4, s: real)
    ensures Dot4(m.m21, m.m22, m.m23, m.m24,
      s * (m.m14 * m.m23 * m.m32 - m.m13 * m.m24 * m.m32 - m.m14 * m.m22 * m.m33
        + m.m12 * m.m24 * m.m33 + m.m13 * m.m22 * m.m34 - m.m12 * m.m23 * m.m34),
      s * (m.m13 * m.m24 * m.m31 - m.m14 * m.m23 * m.m31 + m.m14 * m.m21 * m.m33
        - m.m11 * m.m24 * m.m33 - m.m13 * m.m21 * m.m34 + m.m11 * m.m23 * m.m34),
      s * (m.m14 * m.m22 * m.m31 - m.m12 * m.m24 * m.m31 - m.m14 * m.m21 * m.m32
        + m.m11 * m.m24 * m.m32 + m.m12 * m.m21 * m.m34 - m.m11 * m.m22 * m.m34),
      s * (m.m12 * m.m23 * m.m31 - m.m13 * m.m22 * m.m31 + m.m13 * m.m21 * m.m32
        - m.m11 * m.m23 * m.m32 - m.m12 * m.m21 * m.m33 + m.m11 * m.m22 * m.m33))
      == 0.0
  {
  }

  lemma RightEntry31(m: Mat4, s: real)
    ensures Dot4(m.m31, m.m32, m.m33, m.m34,
      s * (m.m23 * m.m34 * m.m42 - m.m24 * m.m33 * m.m42 + m.m24 * m.m32 * m.m43
        - m.m22 * m.m34 * m.m43 - m.m23 * m.m32 * m.m44 + m.m22 * m.m33 * m.m44),
      s * (m.m24 * m.m33 * m.m41 - m.m23 * m.m34 * m.m41 - m.m24 * m.m31 * m.m43
        + m.m21 * m.m34 * m.m43 + m.m23 * m.m31 * m.m44 - m.m21 * m.m33 * m.m44),
      s * (m.m22 * m.m34 * m.m41 - m.m24 * m.m32 * m.m41 + m.m24 * m.m31 * m.m42
        - m.m21 * m.m34 * m.m42 - m.m22 * m.m31 * m.m44 + m.m21 * m.m32 * m.m44),
      s * (m.m23 * m.m32 * m.m41 - m.m22 * m.m33 * m.m41 - m.m23 * m.m31 * m.m42
        + m.m21 * m.m33 * m.m42 + m.m22 * m.m31 * m.m43 - m.m21 * m.m32 * m.m43))
      == 0.0
  {
  }

  lemma RightEntry32(m: Mat4, s: real)
    ensures Dot4(m.m31, m.m32, m.m33, m.m34,
      s * (m.m14 * m.m33 * m.m42 - m.m13 * m.m34 * m.m42 - m.m14 * m.m32 * m.m43
        + m.m12 * m.m34 * m.m43 + m.m13 * m.m32 * m.m44 - m.m12 * m.m33 * m.m44),
      s * (m.m13 * m.m34 * m.m41 - m.m14 * m.m33 * m.m41 + m.m14 * m.m31 * m.m43
        - m.m11 * m.m34 * m.m43 - m.m13 * m.m31 * m.m44 + m.m11 * m.m33 * m.m44),
      s * (m.m14 * m.m32 * m.m41 - m.m12 * m.m34 * m.m41 - m.m14 * m.m31 * m.m42
        + m.m11 * m.m34 * m.m42 + m.m12 * m.m31 * m.m44 - m.m11 * m.m32 * m.m44),
      s * (m.m12 * m.m33 * m.m41 - m.m13 * m.m32 * m.m41 + m.m13 * m.m31 * m.m42
        - m.m11 * m.m33 * m.m42 - m.m12 * m.m31 * m.m43 + m.m11 * m.m32 * m.m43))
      == 0.0
  {
  }

  lemma RightEntry33(m: Mat4, s: real)
    requires s * m.Determinant() == 1.0
    ensures Dot4(m.m31, m.m32, m.m33, m.m34,
      s * (m.m13 * m.m24 * m.m42 - m.m14 * m.m23 * m.m42 + m.m14 * m.m22 * m.m43
        - m.m12 * m.m24 * m.m43 - m.m13 * m.m22 * m.m44 + m.m12 * m.m23 * m.m44),
      s * (m.m14 * m.m23 * m.m41 - m.m13 * m.m24 * m.m41 - m.m14 * m.m21 * m.m43
        + m.m11 * m.m24 * m.m43 + m.m13 * m.m21 * m.m44 - m.m11 * m.m23 * m.m44),
      s * (m.m12 * m.m24 * m.m41 - m.m14 * m.m22 * m.m41 + m.m14 * m.m21 * m.m42
        - m.m11 * m.m24 * m.m42 - m.m12 * m.m21 * m.m44 + m.m11 * m.m22 * m.m44),
      s * (m.m13 * m.m22 * m.m41 - m.m12 * m.m23 * m.m41 - m.m13 * m.m21 * m.m42
        + m.m11 * m.m23 * m.m42 + m.m12 * m.m21 * m.m43 - m.m11 * m.m22 * m.m43))
      == 1.0
  {
  }

  lemma RightEntry34(m: Mat4, s: real)
    ensures Dot4(m.m31, m.m32, m.m33, m.m34,
      s * (m.m14 * m.m23 * m.m32 - m.m13 * m.m24 * m.m32 - m.m14 * m.m22 * m.m33
        + m.m12 * m.m24 * m.m33 + m.m13 * m.m22 * m.m34 - m.m12 * m.m23 * m.m34),
      s * (m.m13 * m.m24 * m.m31 - m.m14 * m.m23 * m.m31 + m.m14 * m.m21 * m.m33
        - m.m11 * m.m24 * m.m33 - m.m13 * m.m21 * m.m34 + m.m11 * m.m23 * m.m34),
      s * (m.m14 * m.m22 * m.m31 - m.m12 * m.m24 * m.m31 - m.m14 * m.m21 * m.m32
        + m.m11 * m.m24 * m.m32 + m.m12 * m.m21 * m.m34 - m.m11 * m.m22 * m.m34),
      s * (m.m12 * m.m23 * m.m31 - m.m13 * m.m22 * m.m31 + m.m13 * m.m21 * m.m32
        - m.m11 * m.m23 * m.m32 - m.m12 * m.m21 * m.m33 + m.m11 * m.m22 * m.m33))
      == 0.0
  {
  }

  lemma RightEntry41(m: Mat4, s: real)
    ensures Dot4(m.m41, m.m42, m.m43, m.m44,
      s * (m.m23 * m.m34 * m.m42 - m.m24 * m.m33 * m.m42 + m.m24 * m.m32 * m.m43
        - m.m22 * m.m34 * m.m43 - m.m23 * m.m32 * m.m44 + m.m22 * m.m33 * m.m44),
      s * (m.m24 * m.m33 * m.m41 - m.m23 * m.m34 * m.m41 - m.m24 * m.m31 * m.m43
        + m.m21 * m.m34 * m.m43 + m.m23 * m.m31 * m.m44 - m.m21 * m.m33 * m.m44),
      s * (m.m22 * m.m34 * m.m41 - m.m24 * m.m32 * m.m41 + m.m24 * m.m31 * m.m42
        - m.m21 * m.m34 * m.m42 - m.m22 * m.m31 * m.m44 + m.m21 * m.m32 * m.m44),
      s * (m.m23 * m.m32 * m.m41 - m.m22 * m.m33 * m.m41 - m.m23 * m.m31 * m.m42
        + m.m21 * m.m33 * m.m42 + m.m22 * m.m31 * m.m43 - m.m21 * m.m32 * m.m43))
      == 0.0
  {
  }

  lemma RightEntry42(m: Mat4, s: real)
    ensures Dot4(m.m41, m.m42, m.m43, m.m44,
      s * (m.m14 * m.m33 * m.m42 - m.m13 * m.m34 * m.m42 - m.m14 * m.m32 * m.m43
        + m.m12 * m.m34 * m.m43 + m.m13 * m.m32 * m.m44 - m.m12 * m.m33 * m.m44),
      s * (m.m13 * m.m34 * m.m41 - m.m14 * m.m33 * m.m41 + m.m14 * m.m31 * m.m43
        - m.m11 * m.m34 * m.m43 - m.m13 * m.m31 * m.m44 + m.m11 * m.m33 * m.m44),
      s * (m.m14 * m.m32 * m.m41 - m.m12 * m.m34 * m.m41 - m.m14 * m.m31 * m.m42
        + m.m11 * m.m34 * m.m42 + m.m12 * m.m31 * m.m44 - m.m11 * m.m32 * m.m44),
      s * (m.m12 * m.m33 * m.m41 - m.m13 * m.m32 * m.m41 + m.m13 * m.m31 * m.m42
        - m.m11 * m.m33 * m.m42 - m.m12 * m.m31 * m.m43 + m.m11 * m.m32 * m.m43))
      == 0.0
  {
  }

  lemma RightEntry43(m: Mat4, s: real)
    ensures Dot4(m.m41, m.m42, m.m43, m.m44,
      s * (m.m13 * m.m24 * m.m42 - m.m14 * m.m23 * m.m42 + m.m14 * m.m22 * m.m43
        - m.m12 * m.m24 * m.m43 - m.m13 * m.m22 * m.m44 + m.m12 * m.m23 * m.m44),
      s * (m.m14 * m.m23 * m.m41 - m.m13 * m.m24 * m.m41 - m.m14 * m.m21 * m.m43
        + m.m11 * m.m24 * m.m43 + m.m13 * m.m21 * m.m44 - m.m11 * m.m23 * m.m44),
      s * (m.m12 * m.m24 * m.m41 - m.m14 * m.m22 * m.m41 + m.m14 * m.m21 * m.m42
        - m.m11 * m.m24 * m.m42 - m.m12 * m.m21 * m.m44 + m.m11 * m.m22 * m.m44),
      s * (m.m13 * m.m22 * m.m41 - m.m12 * m.m23 * m.m41 - m.m13 * m.m21 * m.m42
        + m.m11 * m.m23 * m.m42 + m.m12 * m.m21 * m.m43 - m.m11 * m.m22 * m.m43))
      == 0.0
  {
  }

  lemma RightEntry44(m: Mat4, s: real)
    requires s * m.Determinant() == 1.0
    ensures Dot4(m.m41, m.m42, m.m43, m.m44,
      s * (m.m14 * m.m23 * m.m32 - m.m13 * m.m24 * m.m32 - m.m14 * m.m22 * m.m33
        + m.m12 * m.m24 * m.m33 + m.m13 * m.m22 * m.m34 - m.m12 * m.m23 * m.m34),
      s * (m.m13 * m.m24 * m.m31 - m.m14 * m.m23 * m.m31 + m.m14 * m.m21 * m.m33
        - m.m11 * m.m24 * m.m33 - m.m13 * m.m21 * m.m34 + m.m11 * m.m23 * m.m34),
      s * (m.m14 * m.m22 * m.m31 - m.m12 * m.m24 * m.m31 - m.m14 * m.m21 * m.m32
        + m.m11 * m.m24 * m.m32 + m.m12 * m.m21 * m.m34 - m.m11 * m.m22 * m.m34),
      s * (m.m12 * m.m23 * m.m31 - m.m13 * m.m22 * m.m31 + m.m13 * m.m21 * m.m32
        - m.m11 * m.m23 * m.m32 - m.m12 * m.m21 * m.m33 + m.m11 * m.m22 * m.m33))
      == 1.0
  {
  }

  lemma LeftEntry11(m: Mat4, s: real)
    requires s * m.Determinant() == 1.0
    ensures Dot4(s * (m.m23 * m.m34 * m.m42 - m.m24 * m.m33 * m.m42 + m.m24 * m.m32 * m.m43
        - m.m22 * m.m34 * m.m43 - m.m23 * m.m32 * m.m44 + m.m22 * m.m33 * m.m44),
      s * (m.m14 * m.m33 * m.m42 - m.m13 * m.m34 * m.m42 - m.m14 * m.m32 * m.m43
        + m.m12 * m.m34 * m.m43 + m.m13 * m.m32 * m.m44 - m.m12 * m.m33 * m.m44),
      s * (m.m13 * m.m24 * m.m42 - m.m14 * m.m23 * m.m42 + m.m14 * m.m22 * m.m43
        - m.m12 * m.m24 * m.m43 - m.m13 * m.m22 * m.m44 + m.m12 * m.m23 * m.m44),
      s * (m.m14 * m.m23 * m.m32 - m.m13 * m.m24 * m.m32 - m.m14 * m.m22 * m.m33
        + m.m12 * m.m24 * m.m33 + m.m13 * m.m22 * m.m34 - m.m12 * m.m23 * m.m34),
      m.m11, m.m21, m.m31, m.m41)
      == 1.0
  {
  }

  lemma LeftEntry12(m: Mat4, s: real)
    ensures Dot4(s * (m.m23 * m.m34 * m.m42 - m.m24 * m.m33 * m.m42 + m.m24 * m.m32 * m.m43
        - m.m22 * m.m34 * m.m43 - m.m23 * m.m32 * m.m44 + m.m22 * m.m33 * m.m44),
      s * (m.m14 * m.m33 * m.m42 - m.m13 * m.m34 * m.m42 - m.m14 * m.m32 * m.m43
        + m.m12 * m.m34 * m.m43 + m.m13 * m.m32 * m.m44 - m.m12 * m.m33 * m.m44),
      s * (m.m13 * m.m24 * m.m42 - m.m14 * m.m23 * m.m42 + m.m14 * m.m22 * m.m43
        - m.m12 * m.m24 * m.m43 - m.m13 * m.m22 * m.m44 + m.m12 * m.m23 * m.m44),
      s * (m.m14 * m.m23 * m.m32 - m.m13 * m.m24 * m.m32 - m.m14 * m.m22 * m.m33
        + m.m12 * m.m24 * m.m33 + m.m13 * m.m22 * m.m34 - m.m12 * m.m23 * m.m34),
      m.m12, m.m22, m.m32, m.m42)
      == 0.0
  {
  }

  lemma LeftEntry13(m: Mat4, s: real)
    ensures Dot4(s * (m.m23 * m.m34 * m.m42 - m.m24 * m.m33 * m.m42 + m.m24 * m.m32 * m.m43
        - m.m22 * m.m34 * m.m43 - m.m23 * m.m32 * m.m44 + m.m22 * m.m33 * m.m44),
      s * (m.m14 * m.m33 * m.m42 - m.m13 * m.m34 * m.m42 - m.m14 * m.m32 * m.m43
        + m.m12 * m.m34 * m.m43 + m.m13 * m.m32 * m.m44 - m.m12 * m.m33 * m.m44),
      s * (m.m13 * m.m24 * m.m42 - m.m14 * m.m23 * m.m42 + m.m14 * m.m22 * m.m43
        - m.m12 * m.m24 * m.m43 - m.m13 * m.m22 * m.m44 + m.m12 * m.m23 * m.m44),
      s * (m.m14 * m.m23 * m.m32 - m.m13 * m.m24 * m.m32 - m.m14 * m.m22 * m.m33
        + m.m12 * m.m24 * m.m33 + m.m13 * m.m22 * m.m34 - m.m12 * m.m23 * m.m34),
      m.m13, m.m23, m.m33, m.m43)
      == 0.0
  {
  }

  lemma LeftEntry14(m: Mat4, s: real)
    ensures Dot4(s * (m.m23 * m.m34 * m.m42 - m.m24 * m.m33 * m.m42 + m.m24 * m.m32 * m.m43
        - m.m22 * m.m34 * m.m43 - m.m23 * m.m32 * m.m44 + m.m22 * m.m33 * m.m44),
      s * (m.m14 * m.m33 * m.m42 - m.m13 * m.m34 * m.m42 - m.m14 * m.m32 * m.m43
        + m.m12 * m.m34 * m.m43 + m.m13 * m.m32 * m.m44 - m.m12 * m.m33 * m.m44),
      s * (m.m13 * m.m24 * m.m42 - m.m14 * m.m23 * m.m42 + m.m14 * m.m22 * m.m43
        - m.m12 * m.m24 * m.m43 - m.m13 * m.m22 * m.m44 + m.m12 * m.m23 * m.m44),
      s * (m.m14 * m.m23 * m.m32 - m.m13 * m.m24 * m.m32 - m.m14 * m.m22 * m.m33
        + m.m12 * m.m24 * m.m33 + m.m13 * m.m22 * m.m34 - m.m12 * m.m23 * m.m34),
      m.m14, m.m24, m.m34, m.m44)
      == 0.0
  {
  }

  lemma LeftEntry21(m: Mat4, s: real)
    ensures Dot4(s * (m.m24 * m.m33 * m.m41 - m.m23 * m.m34 * m.m41 - m.m24 * m.m31 * m.m43
        + m.m21 * m.m34 * m.m43 + m.m23 * m.m31 * m.m44 - m.m21 * m.m33 * m.m44),
      s * (m.m13 * m.m34 * m.m41 - m.m14 * m.m33 * m.m41 + m.m14 * m.m31 * m.m43
        - m.m11 * m.m34 * m.m43 - m.m13 * m.m31 * m.m44 + m.m11 * m.m33 * m.m44),
      s * (m.m14 * m.m23 * m.m41 - m.m13 * m.m24 * m.m41 - m.m14 * m.m21 * m.m43
        + m.m11 * m.m24 * m.m43 + m.m13 * m.m21 * m.m44 - m.m11 * m.m23 * m.m44),
      s * (m.m13 * m.m24 * m.m31 - m.m14 * m.m23 * m.m31 + m.m14 * m.m21 * m.m33
        - m.m11 * m.m24 * m.m33 - m.m13 * m.m21 * m.m34 + m.m11 * m.m23 * m.m34),
      m.m11, m.m21, m.m31, m.m41)
      == 0.0
  {
  }

  lemma LeftEntry22(m: Mat4, s: real)
    requires s * m.Determinant() == 1.0
    ensures Dot4(s * (m.m24 * m.m33 * m.m41 - m.m23 * m.m34 * m.m41 - m.m24 * m.m31 * m.m43
        + m.m21 * m.m34 * m.m43 + m.m23 * m.m31 * m.m44 - m.m21 * m.m33 * m.m44),
      s * (m.m13 * m.m34 * m.m41 - m.m14 * m.m33 * m.m41 + m.m14 * m.m31 * m.m43
        - m.m11 * m.m34 * m.m43 - m.m13 * m.m31 * m.m44 + m.m11 * m.m33 * m.m44),
      s * (m.m14 * m.m23 * m.m41 - m.m13 * m.m24 * m.m41 - m.m14 * m.m21 * m.m43
        + m.m11 * m.m24 * m.m43 + m.m13 * m.m21 * m.m44 - m.m11 * m.m23 * m.m44),
      s * (m.m13 * m.m24 * m.m31 - m.m14 * m.m23 * m.m31 + m.m14 * m.m21 * m.m33
        - m.m11 * m.m24 * m.m33 - m.m13 * m.m21 * m.m34 + m.m11 * m.m23 * m.m34),
      m.m12, m.m22, m.m32, m.m42)
      == 1.0
  {
  }

  lemma LeftEntry23(m: Mat4, s: real)
    ensures Dot4(s * (m.m24 * m.m33 * m.m41 - m.m23 * m.m34 * m.m41 - m.m24 * m.m31 * m.m43
        + m.m21 * m.m34 * m.m43 + m.m23 * m.m31 * m.m44 - m.m21 * m.m33 * m.m44),
      s * (m.m13 * m.m34 * m.m41 - m.m14 * m.m33 * m.m41 + m.m14 * m.m31 * m.m43
        - m.m11 * m.m34 * m.m43 - m.m13 * m.m31 * m.m44 + m.m11 * m.m33 * m.m44),
      s * (m.m14 * m.m23 * m.m41 - m.m13 * m.m24 * m.m41 - m.m14 * m.m21 * m.m43
        + m.m11 * m.m24 * m.m43 + m.m13 * m.m21 * m.m44 - m.m11 * m.m23 * m.m44),
      s * (m.m13 * m.m24 * m.m31 - m.m14 * m.m23 * m.m31 + m.m14 * m.m21 * m.m33
        - m.m11 * m.m24 * m.m33 - m.m13 * m.m21 * m.m34 + m.m11 * m.m23 * m.m34),
      m.m13, m.m23, m.m33, m.m43)
      == 0.0
  {
  }

  lemma LeftEntry24(m: Mat4, s: real)
    ensures Dot4(s * (m.m24 * m.m33 * m.m41 - m.m23 * m.m34 * m.m41 - m.m24 * m.m31 * m.m43
        + m.m21 * m.m34 * m.m43 + m.m23 * m.m31 * m.m44 - m.m21 * m.m33 * m.m44),
      s * (m.m13 * m.m34 * m.m41 - m.m14 * m.m33 * m.m41 + m.m14 * m.m31 * m.m43
        - m.m11 * m.m34 * m.m43 - m.m13 * m.m31 * m.m44 + m.m11 * m.m33 * m.m44),
      s * (m.m14 * m.m23 * m.m41 - m.m13 * m.m24 * m.m41 - m.m14 * m.m21 * m.m43
        + m.m11 * m.m24 * m.m43 + m.m13 * m.m21 * m.m44 - m.m11 * m.m23 * m.m44),
      s * (m.m13 * m.m24 * m.m31 - m.m14 * m.m23 * m.m31 + m.m14 * m.m21 * m.m33
        - m.m11 * m.m24 * m.m33 - m.m13 * m.m21 * m.m34 + m.m11 * m.m23 * m.m34),
      m.m14, m.m24, m.m34, m.m44)
      == 0.0
  {
  }

  lemma LeftEntry31(m: Mat4, s: real)
    ensures Dot4(s * (m.m22 * m.m34 * m.m41 - m.m24 * m.m32 * m.m41 + m.m24 * m.m31 * m.m42
        - m.m21 * m.m34 * m.m42 - m.m22 * m.m31 * m.m44 + m.m21 * m.m32 * m.m44),
      s * (m.m14 * m.m32 * m.m41 - m.m12 * m.m34 * m.m41 - m.m14 * m.m31 * m.m42
        + m.m11 * m.m34 * m.m42 + m.m12 * m.m31 * m.m44 - m.m11 * m.m32 * m.m44),
      s * (m.m12 * m.m24 * m.m41 - m.m14 * m.m22 * m.m41 + m.m14 * m.m21 * m.m42
        - m.m11 * m.m24 * m.m42 - m.m12 * m.m21 * m.m44 + m.m11 * m.m22 * m.m44),
      s * (m.m14 * m.m22 * m.m31 - m.m12 * m.m24 * m.m31 - m.m14 * m.m21 * m.m32
        + m.m11 * m.m24 * m.m32 + m.m12 * m.m21 * m.m34 - m.m11 * m.m22 * m.m34),
      m.m11, m.m21, m.m31, m.m41)
      == 0.0
  {
  }

  lemma LeftEntry32(m: Mat4, s: real)
    ensures Dot4(s * (m.m22 * m.m34 * m.m41 - m.m24 * m.m32 * m.m41 + m.m24 * m.m31 * m.m42
        - m.m21 * m.m34 * m.m42 - m.m22 * m.m31 * m.m44 + m.m21 * m.m32 * m.m44),
      s * (m.m14 * m.m32 * m.m41 - m.m12 * m.m34 * m.m41 - m.m14 * m.m31 * m.m42
        + m.m11 * m.m34 * m.m42 + m.m12 * m.m31 * m.m44 - m.m11 * m.m32 * m.m44),
      s * (m.m12 * m.m24 * m.m41 - m.m14 * m.m22 * m.m41 + m.m14 * m.m21 * m.m42
        - m.m11 * m.m24 * m.m42 - m.m12 * m.m21 * m.m44 + m.m11 * m.m22 * m.m44),
      s * (m.m14 * m.m22 * m.m31 - m.m12 * m.m24 * m.m31 - m.m14 * m.m21 * m.m32
        + m.m11 * m.m24 * m.m32 + m.m12 * m.m21 * m.m34 - m.m11 * m.m22 * m.m34),
      m.m12, m.m22, m.m32, m.m42)
      == 0.0
  {
  }

  lemma LeftEntry33(m: Mat4, s: real)
    requires s * m.Determinant() == 1.0
    ensures Dot4(s * (m.m22 * m.m34 * m.m41 - m.m24 * m.m32 * m.m41 + m.m24 * m.m31 * m.m42
        - m.m21 * m.m34 * m.m42 - m.m22 * m.m31 * m.m44 + m.m21 * m.m32 * m.m44),
      s * (m.m14 * m.m32 * m.m41 - m.m12 * m.m34 * m.m41 - m.m14 * m.m31 * m.m42
        + m.m11 * m.m34 * m.m42 + m.m12 * m.m31 * m.m44 - m.m11 * m.m32 * m.m44),
      s * (m.m12 * m.m24 * m.m41 - m.m14 * m.m22 * m.m41 + m.m14 * m.m21 * m.m42
        - m.m11 * m.m24 * m.m42 - m.m12 * m.m21 * m.m44 + m.m11 * m.m22 * m.m44),
      s * (m.m14 * m.m22 * m.m31 - m.m12 * m.m24 * m.m31 - m.m14 * m.m21 * m.m32
        + m.m11 * m.m24 * m.m32 + m.m12 * m.m21 * m.m34 - m.m11 * m.m22 * m.m34),
      m.m13, m.m23, m.m33, m.m43)
      == 1.0
  {
  }

  lemma LeftEntry34(m: Mat4, s: real)
    ensures Dot4(s * (m.m22 * m.m34 * m.m41 - m.m24 * m.m32 * m.m41 + m.m24 * m.m31 * m.m42
        - m.m21 * m.m34 * m.m42 - m.m22 * m.m31 * m.m44 + m.m21 * m.m32 * m.m44),
      s * (m.m14 * m.m32 * m.m41 - m.m12 * m.m34 * m.m41 - m.m14 * m.m31 * m.m42
        + m.m11 * m.m34 * m.m42 + m.m12 * m.m31 * m.m44 - m.m11 * m.m32 * m.m44),
      s * (m.m12 * m.m24 * m.m41 - m.m14 * m.m22 * m.m41 + m.m14 * m.m21 * m.m42
        - m.m11 * m.m24 * m.m42 - m.m12 * m.m21 * m.m44 + m.m11 * m.m22 * m.m44),
      s * (m.m14 * m.m22 * m.m31 - m.m12 * m.m24 * m.m31 - m.m14 * m.m21 * m.m32
        + m.m11 * m.m24 * m.m32 + m.m12 * m.m21 * m.m34 - m.m11 * m.m22 * m.m34),
      m.m14, m.m24, m.m34, m.m44)
      == 0.0
  {
  }

  lemma LeftEntry41(m: Mat4, s: real)
    ensures Dot4(s * (m.m23 * m.m32 * m.m41 - m.m22 * m.m33 * m.m41 - m.m23 * m.m31 * m.m42
        + m.m21 * m.m33 * m.m42 + m.m22 * m.m31 * m.m43 - m.m21 * m.m32 * m.m43),
      s * (m.m12 * m.m33 * m.m41 - m.m13 * m.m32 * m.m41 + m.m13 * m.m31 * m.m42
        - m.m11 * m.m33 * m.m42 - m.m12 * m.m31 * m.m43 + m.m11 * m.m32 * m.m43),
      s * (m.m13 * m.m22 * m.m41 - m.m12 * m.m23 * m.m41 - m.m13 * m.m21 * m.m42
        + m.m11 * m.m23 * m.m42 + m.m12 * m.m21 * m.m43 - m.m11 * m.m22 * m.m43),
      s * (m.m12 * m.m23 * m.m31 - m.m13 * m.m22 * m.m31 + m.m13 * m.m21 * m.m32
        - m.m11 * m.m23 * m.m32 - m.m12 * m.m21 * m.m33 + m.m11 * m.m22 * m.m33),
      m.m11, m.m21, m.m31, m.m41)
      == 0.0
  {
  }

  lemma LeftEntry42(m: Mat4, s: real)
    ensures Dot4(s * (m.m23 * m.m32 * m.m41 - m.m22 * m.m33 * m.m41 - m.m23 * m.m31 * m.m42
        + m.m21 * m.m33 * m.m42 + m.m22 * m.m31 * m.m43 - m.m21 * m.m32 * m.m43),
      s * (m.m12 * m.m33 * m.m41 - m.m13 * m.m32 * m.m41 + m.m13 * m.m31 * m.m42
        - m.m11 * m.m33 * m.m42 - m.m12 * m.m31 * m.m43 + m.m11 * m.m32 * m.m43),
      s * (m.m13 * m.m22 * m.m41 - m.m12 * m.m23 * m.m41 - m.m13 * m.m21 * m.m42
        + m.m11 * m.m23 * m.m42 + m.m12 * m.m21 * m.m43 - m.m11 * m.m22 * m.m43),
      s * (m.m12 * m.m23 * m.m31 - m.m13 * m.m22 * m.m31 + m.m13 * m.m21 * m.m32
        - m.m11 * m.m23 * m.m32 - m.m12 * m.m21 * m.m33 + m.m11 * m.m22 * m.m33),
      m.m12, m.m22, m.m32, m.m42)
      == 0.0
  {
  }

  lemma LeftEntry43(m: Mat4, s: real)
    ensures Dot4(s * (m.m23 * m.m32 * m.m41 - m.m22 * m.m33 * m.m41 - m.m23 * m.m31 * m.m42
        + m.m21 * m.m33 * m.m42 + m.m22 * m.m31 * m.m43 - m.m21 * m.m32 * m.m43),
      s * (m.m12 * m.m33 * m.m41 - m.m13 * m.m32 * m.m41 + m.m13 * m.m31 * m.m42
        - m.m11 * m.m33 * m.m42 - m.m12 * m.m31 * m.m43 + m.m11 * m.m32 * m.m43),
      s * (m.m13 * m.m22 * m.m41 - m.m12 * m.m23 * m.m41 - m.m13 * m.m21 * m.m42
        + m.m11 * m.m23 * m.m42 + m.m12 * m.m21 * m.m43 - m.m11 * m.m22 * m.m43),
      s * (m.m12 * m.m23 * m.m31 - m.m13 * m.m22 * m.m31 + m.m13 * m.m21 * m.m32
        - m.m11 * m.m23 * m.m32 - m.m12 * m.m21 * m.m33 + m.m11 * m.m22 * m.m33),
      m.m13, m.m23, m.m33, m.m43)
      == 0.0
  {
  }

  lemma LeftEntry44(m: Mat4, s: real)
    requires s * m.Determinant() == 1.0
    ensures Dot4(s * (m.m23 * m.m32 * m.m41 - m.m22 * m.m33 * m.m41 - m.m23 * m.m31 * m.m42
        + m.m21 * m.m33 * m.m42 + m.m22 * m.m31 * m.m43 - m.m21 * m.m32 * m.m43),
      s * (m.m12 * m.m33 * m.m41 - m.m13 * m.m32 * m.m41 + m.m13 * m.m31 * m.m42
        - m.m11 * m.m33 * m.m42 - m.m12 * m.m31 * m.m43 + m.m11 * m.m32 * m.m43),
      s * (m.m13 * m.m22 * m.m41 - m.m12 * m.m23 * m.m41 - m.m13 * m.m21 * m.m42
        + m.m11 * m.m23 * m.m42 + m.m12 * m.m21 * m.m43 - m.m11 * m.m22 * m.m43),
      s * (m.m12 * m.m23 * m.m31 - m.m13 * m.m22 * m.m31 + m.m13 * m.m21 * m.m32
        - m.m11 * m.m23 * m.m32 - m.m12 * m.m21 * m.m33 + m.m11 * m.m22 * m.m33),
      m.m14, m.m24, m.m34, m.m44)
      == 1.0
  {
  }

}
