/**
 * Polynomial identities over the real coordinates of quaternions, proved by
 * expanding every product into monomials written in one fixed order and then
 * combining the expansions linearly.  `Expands(x, s)` records that `x` equals
 * the sum `s` in the written form; `Same(x, y)` that two spellings of one
 * monomial are equal.  Keeping each product expansion in its own small lemma
 * keeps the nonlinear reasoning of each proof obligation small.
 */
module Expansions {
  /** `x` equals the sum of monomials `sum`, as written. */
  predicate Expands(x: real, sum: real) { x == sum }

  /** Two spellings of the same monomial. */
  predicate Same(x: real, y: real) { x == y }

  // Multiplying an expanded sum by one more factor, on the right (`Times`) or on the left (`TimesLeft`).

  lemma TimesNeg3(u: real, w: real, b0: real, c0: real, b1: real, c1: real, b2: real, c2: real)
    requires Expands(u, -(b0 * c0) - b1 * c1 - b2 * c2)
    ensures Expands(u * w, -(b0 * c0 * w) - b1 * c1 * w - b2 * c2 * w)
  {
  }

  lemma TimesSum2Diff(u: real, w: real, b0: real, c0: real, b1: real, c1: real, b2: real, c2: real)
    requires Expands(u, b0 * c0 + b1 * c1 - b2 * c2)
    ensures Expands(u * w, b0 * c0 * w + b1 * c1 * w - b2 * c2 * w)
  {
  }

  lemma TimesLeftTwice(u: real, w: real, b0: real, c0: real, b1: real, c1: real)
    requires Expands(u, (b0 * c0 - b1 * c1) * 2.0)
    ensures Expands(w * u, 2.0 * (w * b0 * c0) - 2.0 * (w * b1 * c1))
  {
  }

  lemma TimesLeftSum4(u: real, w: real, b0: real, c0: real, b1: real, c1: real, b2: real, c2: real, b3: real, c3: real)
    requires Expands(u, b0 * c0 + b1 * c1 + b2 * c2 + b3 * c3)
    ensures Expands(w * u, w * b0 * c0 + w * b1 * c1 + w * b2 * c2 + w * b3 * c3)
  {
  }

  /** The six orders of a product of three factors agree. */
  lemma Rearrange(x0: real, x1: real, x2: real)
    ensures Same(x0 * x1 * x2, x0 * x2 * x1) && Same(x0 * x1 * x2, x1 * x0 * x2) && Same(x0 * x1 * x2, x1 * x2 * x0)
    ensures Same(x0 * x1 * x2, x2 * x0 * x1) && Same(x0 * x1 * x2, x2 * x1 * x0)
  {
  }

  // The sandwich product `(q v) q*`: `m = q v`, `c` the doubled cross product `2 (u × v)`, `n` the squared norm.

  /** The linear step of the scalar part, once every product is expanded. */
  lemma SandwichStepA(x0: real, x1: real, x2: real, x3: real, aix: real, ajy: real, akz: real, ijz: real, iky: real, jkx: real, aix_1: real, aix_2: real, ajy_1: real, ajy_2: real, akz_1: real, akz_2: real, ijz_1: real, ijz_2: real, iky_1: real, iky_2: real, jkx_1: real, jkx_2: real)
    requires Expands(x0, -(aix_1) - ajy_1 - akz_1)
    requires Expands(x1, aix_2 + ijz_1 - iky_1)
    requires Expands(x2, ajy_2 + jkx_1 - ijz_2)
    requires Expands(x3, akz_2 + iky_2 - jkx_2)
    requires Same(aix, aix_1)
    requires Same(aix, aix_2)
    requires Same(ajy, ajy_1)
    requires Same(ajy, ajy_2)
    requires Same(akz, akz_1)
    requires Same(akz, akz_2)
    requires Same(ijz, ijz_1)
    requires Same(ijz, ijz_2)
    requires Same(iky, iky_1)
    requires Same(iky, iky_2)
    requires Same(jkx, jkx_1)
    requires Same(jkx, jkx_2)
    ensures x0 + x1 + x2 + x3 == 0.0
  {
  }

  /** The scalar part of `(q v) q*` is zero. */
  lemma SandwichRawA(a: real, i: real, j: real, k: real, x: real, y: real, z: real,
                 ma: real, mi: real, mj: real, mk: real, cx: real, cy: real, cz: real, n: real)
    requires Expands(ma, -(i * x) - j * y - k * z) && Expands(mi, a * x + j * z - k * y)
    requires Expands(mj, a * y + k * x - i * z) && Expands(mk, a * z + i * y - j * x)
    requires Expands(cx, (j * z - k * y) * 2.0) && Expands(cy, (k * x - i * z) * 2.0) && Expands(cz, (i * y - j * x) * 2.0)
    requires Expands(n, a * a + i * i + j * j + k * k)
    ensures ma * a + mi * i + mj * j + mk * k == 0.0
  {
    TimesNeg3(ma, a, i, x, j, y, k, z);
    TimesSum2Diff(mi, i, a, x, j, z, k, y);
    TimesSum2Diff(mj, j, a, y, k, x, i, z);
    TimesSum2Diff(mk, k, a, z, i, y, j, x);
    Rearrange(a, i, x);
    Rearrange(a, j, y);
    Rearrange(a, k, z);
    Rearrange(i, j, z);
    Rearrange(i, k, y);
    Rearrange(j, k, x);
    SandwichStepA(ma * a, mi * i, mj * j, mk * k, a * i * x, a * j * y, a * k * z, i * j * z, i * k * y, j * k * x, i * x * a, a * x * i, j * y * a, a * y * j, k * z * a, a * z * k, j * z * i, i * z * j, k * y * i, i * y * k, k * x * j, j * x * k);
  }

  /** The linear step of one vector part, once every product is expanded. */
  lemma SandwichStepI(x0: real, x1: real, x2: real, x3: real, x4: real, x5: real, x6: real, x7: real, e_x: real, aax: real, ajz: real, aky: real, iix: real, ijy: real, ikz: real, kkx: real, jjx: real, aax_1: real, aax_2: real, ajz_1: real, ajz_2: real, aky_1: real, aky_2: real, iix_1: real, iix_2: real, ijy_1: real, ijy_2: real, ijy_3: real, ikz_1: real, ikz_2: real, ikz_3: real, kkx_1: real, kkx_2: real, jjx_1: real, jjx_2: real)
    requires Expands(x0, aax_1 + ajz_1 - aky_1)
    requires Expands(x1, -(iix_1) - ijy_1 - ikz_1)
    requires Expands(x2, aky_2 + kkx_1 - ikz_2)
    requires Expands(x3, ajz_2 + ijy_2 - jjx_1)
    requires Expands(x4, 2.0 * (ajz) - 2.0 * (aky))
    requires Expands(x5, 2.0 * (ijy_3) - 2.0 * (jjx))
    requires Expands(x6, 2.0 * (kkx) - 2.0 * (ikz_3))
    requires Expands(x7, aax_2 + iix_2 + jjx_2 + kkx_2)
    requires Same(aax, aax_1)
    requires Same(aax, aax_2)
    requires Same(ajz, ajz_1)
    requires Same(ajz, ajz_2)
    requires Same(aky, aky_1)
    requires Same(aky, aky_2)
    requires Same(iix, iix_1)
    requires Same(iix, iix_2)
    requires Same(ijy, ijy_1)
    requires Same(ijy, ijy_2)
    requires Same(ijy, ijy_3)
    requires Same(ikz, ikz_1)
    requires Same(ikz, ikz_2)
    requires Same(ikz, ikz_3)
    requires Same(kkx, kkx_1)
    requires Same(kkx, kkx_2)
    requires Same(jjx, jjx_1)
    requires Same(jjx, jjx_2)
    ensures x0 - x1 - x2 + x3 == e_x + x4 + x5 - x6 + x7 - e_x
  {
  }

  /** The `i` part of `(q v) q*` is the expanded `x` coordinate plus `(n - 1) x`. */
  lemma SandwichRawI(a: real, i: real, j: real, k: real, x: real, y: real, z: real,
                 ma: real, mi: real, mj: real, mk: real, cx: real, cy: real, cz: real, n: real)
    requires Expands(ma, -(i * x) - j * y - k * z) && Expands(mi, a * x + j * z - k * y)
    requires Expands(mj, a * y + k * x - i * z) && Expands(mk, a * z + i * y - j * x)
    requires Expands(cx, (j * z - k * y) * 2.0) && Expands(cy, (k * x - i * z) * 2.0) && Expands(cz, (i * y - j * x) * 2.0)
    requires Expands(n, a * a + i * i + j * j + k * k)
    ensures mi * a - ma * i - mj * k + mk * j == x + a * cx + j * cz - k * cy + x * n - x
  {
    TimesSum2Diff(mi, a, a, x, j, z, k, y);
    TimesNeg3(ma, i, i, x, j, y, k, z);
    TimesSum2Diff(mj, k, a, y, k, x, i, z);
    TimesSum2Diff(mk, j, a, z, i, y, j, x);
    TimesLeftTwice(cx, a, j, z, k, y);
    TimesLeftTwice(cz, j, i, y, j, x);
    TimesLeftTwice(cy, k, k, x, i, z);
    TimesLeftSum4(n, x, a, a, i, i, j, j, k, k);
    Rearrange(a, a, x);
    Rearrange(a, j, z);
    Rearrange(a, k, y);
    Rearrange(i, i, x);
    Rearrange(i, j, y);
    Rearrange(i, k, z);
    Rearrange(k, k, x);
    Rearrange(j, j, x);
    SandwichStepI(mi * a, ma * i, mj * k, mk * j, a * cx, j * cz, k * cy, x * n, x, a * a * x, a * j * z, a * k * y, i * i * x, i * j * y, i * k * z, k * k * x, j * j * x, a * x * a, x * a * a, j * z * a, a * z * j, k * y * a, a * y * k, i * x * i, x * i * i, j * y * i, i * y * j, j * i * y, k * z * i, i * z * k, k * i * z, k * x * k, x * k * k, j * x * j, x * j * j);
  }

  /** The linear step of one vector part, once every product is expanded. */
  lemma SandwichStepJ(x0: real, x1: real, x2: real, x3: real, x4: real, x5: real, x6: real, x7: real, e_y: real, aay: real, akx: real, aiz: real, ijx: real, jjy: real, jkz: real, iiy: real, kky: real, aay_1: real, aay_2: real, akx_1: real, akx_2: real, aiz_1: real, aiz_2: real, ijx_1: real, ijx_2: real, jjy_1: real, jjy_2: real, jkz_1: real, jkz_2: real, jkz_3: real, iiy_1: real, iiy_2: real, kky_1: real, kky_2: real)
    requires Expands(x0, aay_1 + akx_1 - aiz_1)
    requires Expands(x1, -(ijx_1) - jjy_1 - jkz_1)
    requires Expands(x2, aiz_2 + iiy_1 - ijx_2)
    requires Expands(x3, akx_2 + jkz_2 - kky_1)
    requires Expands(x4, 2.0 * (akx) - 2.0 * (aiz))
    requires Expands(x5, 2.0 * (jkz_3) - 2.0 * (kky))
    requires Expands(x6, 2.0 * (iiy) - 2.0 * (ijx))
    requires Expands(x7, aay_2 + iiy_2 + jjy_2 + kky_2)
    requires Same(aay, aay_1)
    requires Same(aay, aay_2)
    requires Same(akx, akx_1)
    requires Same(akx, akx_2)
    requires Same(aiz, aiz_1)
    requires Same(aiz, aiz_2)
    requires Same(ijx, ijx_1)
    requires Same(ijx, ijx_2)
    requires Same(jjy, jjy_1)
    requires Same(jjy, jjy_2)
    requires Same(jkz, jkz_1)
    requires Same(jkz, jkz_2)
    requires Same(jkz, jkz_3)
    requires Same(iiy, iiy_1)
    requires Same(iiy, iiy_2)
    requires Same(kky, kky_1)
    requires Same(kky, kky_2)
    ensures x0 - x1 - x2 + x3 == e_y + x4 + x5 - x6 + x7 - e_y
  {
  }

  /** The `j` part of `(q v) q*` is the expanded `y` coordinate plus `(n - 1) y`. */
  lemma SandwichRawJ(a: real, i: real, j: real, k: real, x: real, y: real, z: real,
                 ma: real, mi: real, mj: real, mk: real, cx: real, cy: real, cz: real, n: real)
    requires Expands(ma, -(i * x) - j * y - k * z) && Expands(mi, a * x + j * z - k * y)
    requires Expands(mj, a * y + k * x - i * z) && Expands(mk, a * z + i * y - j * x)
    requires Expands(cx, (j * z - k * y) * 2.0) && Expands(cy, (k * x - i * z) * 2.0) && Expands(cz, (i * y - j * x) * 2.0)
    requires Expands(n, a * a + i * i + j * j + k * k)
    ensures mj * a - ma * j - mk * i + mi * k == y + a * cy + k * cx - i * cz + y * n - y
  {
    TimesSum2Diff(mj, a, a, y, k, x, i, z);
    TimesNeg3(ma, j, i, x, j, y, k, z);
    TimesSum2Diff(mk, i, a, z, i, y, j, x);
    TimesSum2Diff(mi, k, a, x, j, z, k, y);
    TimesLeftTwice(cy, a, k, x, i, z);
    TimesLeftTwice(cx, k, j, z, k, y);
    TimesLeftTwice(cz, i, i, y, j, x);
    TimesLeftSum4(n, y, a, a, i, i, j, j, k, k);
    Rearrange(a, a, y);
    Rearrange(a, k, x);
    Rearrange(a, i, z);
    Rearrange(i, j, x);
    Rearrange(j, j, y);
    Rearrange(j, k, z);
    Rearrange(i, i, y);
    Rearrange(k, k, y);
    SandwichStepJ(mj * a, ma * j, mk * i, mi * k, a * cy, k * cx, i * cz, y * n, y, a * a * y, a * k * x, a * i * z, i * j * x, j * j * y, j * k * z, i * i * y, k * k * y, a * y * a, y * a * a, k * x * a, a * x * k, i * z * a, a * z * i, i * x * j, j * x * i, j * y * j, y * j * j, k * z * j, j * z * k, k * j * z, i * y * i, y * i * i, k * y * k, y * k * k);
  }

  /** The linear step of one vector part, once every product is expanded. */
  lemma SandwichStepK(x0: real, x1: real, x2: real, x3: real, x4: real, x5: real, x6: real, x7: real, e_z: real, aaz: real, aiy: real, ajx: real, ikx: real, jky: real, kkz: real, jjz: real, iiz: real, aaz_1: real, aaz_2: real, aiy_1: real, aiy_2: real, ajx_1: real, ajx_2: real, ikx_1: real, ikx_2: real, jky_1: real, jky_2: real, kkz_1: real, kkz_2: real, jjz_1: real, jjz_2: real, iiz_1: real, iiz_2: real)
    requires Expands(x0, aaz_1 + aiy_1 - ajx_1)
    requires Expands(x1, -(ikx_1) - jky_1 - kkz_1)
    requires Expands(x2, ajx_2 + jjz_1 - jky_2)
    requires Expands(x3, aiy_2 + ikx_2 - iiz_1)
    requires Expands(x4, 2.0 * (aiy) - 2.0 * (ajx))
    requires Expands(x5, 2.0 * (ikx) - 2.0 * (iiz))
    requires Expands(x6, 2.0 * (jjz) - 2.0 * (jky))
    requires Expands(x7, aaz_2 + iiz_2 + jjz_2 + kkz_2)
    requires Same(aaz, aaz_1)
    requires Same(aaz, aaz_2)
    requires Same(aiy, aiy_1)
    requires Same(aiy, aiy_2)
    requires Same(ajx, ajx_1)
    requires Same(ajx, ajx_2)
    requires Same(ikx, ikx_1)
    requires Same(ikx, ikx_2)
    requires Same(jky, jky_1)
    requires Same(jky, jky_2)
    requires Same(kkz, kkz_1)
    requires Same(kkz, kkz_2)
    requires Same(jjz, jjz_1)
    requires Same(jjz, jjz_2)
    requires Same(iiz, iiz_1)
    requires Same(iiz, iiz_2)
    ensures x0 - x1 - x2 + x3 == e_z + x4 + x5 - x6 + x7 - e_z
  {
  }

  /** The `k` part of `(q v) q*` is the expanded `z` coordinate plus `(n - 1) z`. */
  lemma SandwichRawK(a: real, i: real, j: real, k: real, x: real, y: real, z: real,
                 ma: real, mi: real, mj: real, mk: real, cx: real, cy: real, cz: real, n: real)
    requires Expands(ma, -(i * x) - j * y - k * z) && Expands(mi, a * x + j * z - k * y)
    requires Expands(mj, a * y + k * x - i * z) && Expands(mk, a * z + i * y - j * x)
    requires Expands(cx, (j * z - k * y) * 2.0) && Expands(cy, (k * x - i * z) * 2.0) && Expands(cz, (i * y - j * x) * 2.0)
    requires Expands(n, a * a + i * i + j * j + k * k)
    ensures mk * a - ma * k - mi * j + mj * i == z + a * cz + i * cy - j * cx + z * n - z
  {
    TimesSum2Diff(mk, a, a, z, i, y, j, x);
    TimesNeg3(ma, k, i, x, j, y, k, z);
    TimesSum2Diff(mi, j, a, x, j, z, k, y);
    TimesSum2Diff(mj, i, a, y, k, x, i, z);
    TimesLeftTwice(cz, a, i, y, j, x);
    TimesLeftTwice(cy, i, k, x, i, z);
    TimesLeftTwice(cx, j, j, z, k, y);
    TimesLeftSum4(n, z, a, a, i, i, j, j, k, k);
    Rearrange(a, a, z);
    Rearrange(a, i, y);
    Rearrange(a, j, x);
    Rearrange(i, k, x);
    Rearrange(j, k, y);
    Rearrange(k, k, z);
    Rearrange(j, j, z);
    Rearrange(i, i, z);
    SandwichStepK(mk * a, ma * k, mi * j, mj * i, a * cz, i * cy, j * cx, z * n, z, a * a * z, a * i * y, a * j * x, i * k * x, j * k * y, k * k * z, j * j * z, i * i * z, a * z * a, z * a * a, i * y * a, a * y * i, j * x * a, a * x * j, i * x * k, k * x * i, j * y * k, k * y * j, k * z * k, z * k * k, j * z * j, z * j * j, i * z * i, z * i * i);
  }

  // Associativity of the Hamilton product: `m = p q`, `n = q r`.

  lemma TimesDiff4(u: real, w: real, b0: real, c0: real, b1: real, c1: real, b2: real, c2: real, b3: real, c3: real)
    requires Expands(u, b0 * c0 - b1 * c1 - b2 * c2 - b3 * c3)
    ensures Expands(u * w, b0 * c0 * w - b1 * c1 * w - b2 * c2 * w - b3 * c3 * w)
  {
  }

  lemma TimesSum3Diff(u: real, w: real, b0: real, c0: real, b1: real, c1: real, b2: real, c2: real, b3: real, c3: real)
    requires Expands(u, b0 * c0 + b1 * c1 + b2 * c2 - b3 * c3)
    ensures Expands(u * w, b0 * c0 * w + b1 * c1 * w + b2 * c2 * w - b3 * c3 * w)
  {
  }

  lemma TimesLeftDiff4(u: real, w: real, b0: real, c0: real, b1: real, c1: real, b2: real, c2: real, b3: real, c3: real)
    requires Expands(u, b0 * c0 - b1 * c1 - b2 * c2 - b3 * c3)
    ensures Expands(w * u, w * b0 * c0 - w * b1 * c1 - w * b2 * c2 - w * b3 * c3)
  {
  }

  lemma TimesLeftSum3Diff(u: real, w: real, b0: real, c0: real, b1: real, c1: real, b2: real, c2: real, b3: real, c3: real)
    requires Expands(u, b0 * c0 + b1 * c1 + b2 * c2 - b3 * c3)
    ensures Expands(w * u, w * b0 * c0 + w * b1 * c1 + w * b2 * c2 - w * b3 * c3)
  {
  }

  /** The linear step of the scalar part, once every product is expanded. */
  lemma AssociativeStepA(x0: real, x1: real, x2: real, x3: real, x4: real, x5: real, x6: real, x7: real, paqara: real, piqira: real, pjqjra: real, pkqkra: real, piqari: real, paqiri: real, pjqkri: real, pkqjri: real, pjqarj: real, paqjrj: real, pkqirj: real, piqkrj: real, pkqark: real, paqkrk: real, piqjrk: real, pjqirk: real)
    requires Expands(x0, paqara - piqira - pjqjra - pkqkra)
    requires Expands(x1, piqari + paqiri + pjqkri - pkqjri)
    requires Expands(x2, pjqarj + paqjrj + pkqirj - piqkrj)
    requires Expands(x3, pkqark + paqkrk + piqjrk - pjqirk)
    requires Expands(x4, paqara - paqiri - paqjrj - paqkrk)
    requires Expands(x5, piqira + piqari + piqjrk - piqkrj)
    requires Expands(x6, pjqjra + pjqarj + pjqkri - pjqirk)
    requires Expands(x7, pkqkra + pkqark + pkqirj - pkqjri)
    ensures x0 - x1 - x2 - x3 == x4 - x5 - x6 - x7
  {
  }

  /** Part `a` of `(p q) r` equals part `a` of `p (q r)`. */
  lemma AssociativeRawA(pa: real, pi: real, pj: real, pk: real, qa: real, qi: real, qj: real, qk: real, ra: real, ri: real, rj: real, rk: real, ma: real, mi: real, mj: real, mk: real, na: real, ni: real, nj: real, nk: real)
    requires Expands(ma, pa * qa - pi * qi - pj * qj - pk * qk)
    requires Expands(mi, pi * qa + pa * qi + pj * qk - pk * qj)
    requires Expands(mj, pj * qa + pa * qj + pk * qi - pi * qk)
    requires Expands(mk, pk * qa + pa * qk + pi * qj - pj * qi)
    requires Expands(na, qa * ra - qi * ri - qj * rj - qk * rk)
    requires Expands(ni, qi * ra + qa * ri + qj * rk - qk * rj)
    requires Expands(nj, qj * ra + qa * rj + qk * ri - qi * rk)
    requires Expands(nk, qk * ra + qa * rk + qi * rj - qj * ri)
    ensures ma * ra - mi * ri - mj * rj - mk * rk == pa * na - pi * ni - pj * nj - pk * nk
  {
    TimesDiff4(ma, ra, pa, qa, pi, qi, pj, qj, pk, qk);
    TimesSum3Diff(mi, ri, pi, qa, pa, qi, pj, qk, pk, qj);
    TimesSum3Diff(mj, rj, pj, qa, pa, qj, pk, qi, pi, qk);
    TimesSum3Diff(mk, rk, pk, qa, pa, qk, pi, qj, pj, qi);
    TimesLeftDiff4(na, pa, qa, ra, qi, ri, qj, rj, qk, rk);
    TimesLeftSum3Diff(ni, pi, qi, ra, qa, ri, qj, rk, qk, rj);
    TimesLeftSum3Diff(nj, pj, qj, ra, qa, rj, qk, ri, qi, rk);
    TimesLeftSum3Diff(nk, pk, qk, ra, qa, rk, qi, rj, qj, ri);
    AssociativeStepA(ma * ra, mi * ri, mj * rj, mk * rk, pa * na, pi * ni, pj * nj, pk * nk, pa * qa * ra, pi * qi * ra, pj * qj * ra, pk * qk * ra, pi * qa * ri, pa * qi * ri, pj * qk * ri, pk * qj * ri, pj * qa * rj, pa * qj * rj, pk * qi * rj, pi * qk * rj, pk * qa * rk, pa * qk * rk, pi * qj * rk, pj * qi * rk);
  }

  /** The linear step of one part, once every product is expanded. */
  lemma AssociativeStepI(x0: real, x1: real, x2: real, x3: real, x4: real, x5: real, x6: real, x7: real, piqara: real, paqira: real, pjqkra: real, pkqjra: real, paqari: real, piqiri: real, pjqjri: real, pkqkri: real, pjqark: real, paqjrk: real, pkqirk: real, piqkrk: real, pkqarj: real, paqkrj: real, piqjrj: real, pjqirj: real)
    requires Expands(x0, piqara + paqira + pjqkra - pkqjra)
    requires Expands(x1, paqari - piqiri - pjqjri - pkqkri)
    requires Expands(x2, pjqark + paqjrk + pkqirk - piqkrk)
    requires Expands(x3, pkqarj + paqkrj + piqjrj - pjqirj)
    requires Expands(x4, piqara - piqiri - piqjrj - piqkrk)
    requires Expands(x5, paqira + paqari + paqjrk - paqkrj)
    requires Expands(x6, pjqkra + pjqark + pjqirj - pjqjri)
    requires Expands(x7, pkqjra + pkqarj + pkqkri - pkqirk)
    ensures x0 + x1 + x2 - x3 == x4 + x5 + x6 - x7
  {
  }

  /** Part `i` of `(p q) r` equals part `i` of `p (q r)`. */
  lemma AssociativeRawI(pa: real, pi: real, pj: real, pk: real, qa: real, qi: real, qj: real, qk: real, ra: real, ri: real, rj: real, rk: real, ma: real, mi: real, mj: real, mk: real, na: real, ni: real, nj: real, nk: real)
    requires Expands(ma, pa * qa - pi * qi - pj * qj - pk * qk)
    requires Expands(mi, pi * qa + pa * qi + pj * qk - pk * qj)
    requires Expands(mj, pj * qa + pa * qj + pk * qi - pi * qk)
    requires Expands(mk, pk * qa + pa * qk + pi * qj - pj * qi)
    requires Expands(na, qa * ra - qi * ri - qj * rj - qk * rk)
    requires Expands(ni, qi * ra + qa * ri + qj * rk - qk * rj)
    requires Expands(nj, qj * ra + qa * rj + qk * ri - qi * rk)
    requires Expands(nk, qk * ra + qa * rk + qi * rj - qj * ri)
    ensures mi * ra + ma * ri + mj * rk - mk * rj == pi * na + pa * ni + pj * nk - pk * nj
  {
    TimesSum3Diff(mi, ra, pi, qa, pa, qi, pj, qk, pk, qj);
    TimesDiff4(ma, ri, pa, qa, pi, qi, pj, qj, pk, qk);
    TimesSum3Diff(mj, rk, pj, qa, pa, qj, pk, qi, pi, qk);
    TimesSum3Diff(mk, rj, pk, qa, pa, qk, pi, qj, pj, qi);
    TimesLeftDiff4(na, pi, qa, ra, qi, ri, qj, rj, qk, rk);
    TimesLeftSum3Diff(ni, pa, qi, ra, qa, ri, qj, rk, qk, rj);
    TimesLeftSum3Diff(nk, pj, qk, ra, qa, rk, qi, rj, qj, ri);
    TimesLeftSum3Diff(nj, pk, qj, ra, qa, rj, qk, ri, qi, rk);
    AssociativeStepI(mi * ra, ma * ri, mj * rk, mk * rj, pi * na, pa * ni, pj * nk, pk * nj, pi * qa * ra, pa * qi * ra, pj * qk * ra, pk * qj * ra, pa * qa * ri, pi * qi * ri, pj * qj * ri, pk * qk * ri, pj * qa * rk, pa * qj * rk, pk * qi * rk, pi * qk * rk, pk * qa * rj, pa * qk * rj, pi * qj * rj, pj * qi * rj);
  }

  /** The linear step of one part, once every product is expanded. */
  lemma AssociativeStepJ(x0: real, x1: real, x2: real, x3: real, x4: real, x5: real, x6: real, x7: real, pjqara: real, paqjra: real, pkqira: real, piqkra: real, paqarj: real, piqirj: real, pjqjrj: real, pkqkrj: real, pkqari: real, paqkri: real, piqjri: real, pjqiri: real, piqark: real, paqirk: real, pjqkrk: real, pkqjrk: real)
    requires Expands(x0, pjqara + paqjra + pkqira - piqkra)
    requires Expands(x1, paqarj - piqirj - pjqjrj - pkqkrj)
    requires Expands(x2, pkqari + paqkri + piqjri - pjqiri)
    requires Expands(x3, piqark + paqirk + pjqkrk - pkqjrk)
    requires Expands(x4, pjqara - pjqiri - pjqjrj - pjqkrk)
    requires Expands(x5, paqjra + paqarj + paqkri - paqirk)
    requires Expands(x6, pkqira + pkqari + pkqjrk - pkqkrj)
    requires Expands(x7, piqkra + piqark + piqirj - piqjri)
    ensures x0 + x1 + x2 - x3 == x4 + x5 + x6 - x7
  {
  }

  /** Part `j` of `(p q) r` equals part `j` of `p (q r)`. */
  lemma AssociativeRawJ(pa: real, pi: real, pj: real, pk: real, qa: real, qi: real, qj: real, qk: real, ra: real, ri: real, rj: real, rk: real, ma: real, mi: real, mj: real, mk: real, na: real, ni: real, nj: real, nk: real)
    requires Expands(ma, pa * qa - pi * qi - pj * qj - pk * qk)
    requires Expands(mi, pi * qa + pa * qi + pj * qk - pk * qj)
    requires Expands(mj, pj * qa + pa * qj + pk * qi - pi * qk)
    requires Expands(mk, pk * qa + pa * qk + pi * qj - pj * qi)
    requires Expands(na, qa * ra - qi * ri - qj * rj - qk * rk)
    requires Expands(ni, qi * ra + qa * ri + qj * rk - qk * rj)
    requires Expands(nj, qj * ra + qa * rj + qk * ri - qi * rk)
    requires Expands(nk, qk * ra + qa * rk + qi * rj - qj * ri)
    ensures mj * ra + ma * rj + mk * ri - mi * rk == pj * na + pa * nj + pk * ni - pi * nk
  {
    TimesSum3Diff(mj, ra, pj, qa, pa, qj, pk, qi, pi, qk);
    TimesDiff4(ma, rj, pa, qa, pi, qi, pj, qj, pk, qk);
    TimesSum3Diff(mk, ri, pk, qa, pa, qk, pi, qj, pj, qi);
    TimesSum3Diff(mi, rk, pi, qa, pa, qi, pj, qk, pk, qj);
    TimesLeftDiff4(na, pj, qa, ra, qi, ri, qj, rj, qk, rk);
    TimesLeftSum3Diff(nj, pa, qj, ra, qa, rj, qk, ri, qi, rk);
    TimesLeftSum3Diff(ni, pk, qi, ra, qa, ri, qj, rk, qk, rj);
    TimesLeftSum3Diff(nk, pi, qk, ra, qa, rk, qi, rj, qj, ri);
    AssociativeStepJ(mj * ra, ma * rj, mk * ri, mi * rk, pj * na, pa * nj, pk * ni, pi * nk, pj * qa * ra, pa * qj * ra, pk * qi * ra, pi * qk * ra, pa * qa * rj, pi * qi * rj, pj * qj * rj, pk * qk * rj, pk * qa * ri, pa * qk * ri, pi * qj * ri, pj * qi * ri, pi * qa * rk, pa * qi * rk, pj * qk * rk, pk * qj * rk);
  }

  /** The linear step of one part, once every product is expanded. */
  lemma AssociativeStepK(x0: real, x1: real, x2: real, x3: real, x4: real, x5: real, x6: real, x7: real, pkqara: real, paqkra: real, piqjra: real, pjqira: real, paqark: real, piqirk: real, pjqjrk: real, pkqkrk: real, piqarj: real, paqirj: real, pjqkrj: real, pkqjrj: real, pjqari: real, paqjri: real, pkqiri: real, piqkri: real)
    requires Expands(x0, pkqara + paqkra + piqjra - pjqira)
    requires Expands(x1, paqark - piqirk - pjqjrk - pkqkrk)
    requires Expands(x2, piqarj + paqirj + pjqkrj - pkqjrj)
    requires Expands(x3, pjqari + paqjri + pkqiri - piqkri)
    requires Expands(x4, pkqara - pkqiri - pkqjrj - pkqkrk)
    requires Expands(x5, paqkra + paqark + paqirj - paqjri)
    requires Expands(x6, piqjra + piqarj + piqkri - piqirk)
    requires Expands(x7, pjqira + pjqari + pjqjrk - pjqkrj)
    ensures x0 + x1 + x2 - x3 == x4 + x5 + x6 - x7
  {
  }

  /** Part `k` of `(p q) r` equals part `k` of `p (q r)`. */
  lemma AssociativeRawK(pa: real, pi: real, pj: real, pk: real, qa: real, qi: real, qj: real, qk: real, ra: real, ri: real, rj: real, rk: real, ma: real, mi: real, mj: real, mk: real, na: real, ni: real, nj: real, nk: real)
    requires Expands(ma, pa * qa - pi * qi - pj * qj - pk * qk)
    requires Expands(mi, pi * qa + pa * qi + pj * qk - pk * qj)
    requires Expands(mj, pj * qa + pa * qj + pk * qi - pi * qk)
    requires Expands(mk, pk * qa + pa * qk + pi * qj - pj * qi)
    requires Expands(na, qa * ra - qi * ri - qj * rj - qk * rk)
    requires Expands(ni, qi * ra + qa * ri + qj * rk - qk * rj)
    requires Expands(nj, qj * ra + qa * rj + qk * ri - qi * rk)
    requires Expands(nk, qk * ra + qa * rk + qi * rj - qj * ri)
    ensures mk * ra + ma * rk + mi * rj - mj * ri == pk * na + pa * nk + pi * nj - pj * ni
  {
    TimesSum3Diff(mk, ra, pk, qa, pa, qk, pi, qj, pj, qi);
    TimesDiff4(ma, rk, pa, qa, pi, qi, pj, qj, pk, qk);
    TimesSum3Diff(mi, rj, pi, qa, pa, qi, pj, qk, pk, qj);
    TimesSum3Diff(mj, ri, pj, qa, pa, qj, pk, qi, pi, qk);
    TimesLeftDiff4(na, pk, qa, ra, qi, ri, qj, rj, qk, rk);
    TimesLeftSum3Diff(nk, pa, qk, ra, qa, rk, qi, rj, qj, ri);
    TimesLeftSum3Diff(nj, pi, qj, ra, qa, rj, qk, ri, qi, rk);
    TimesLeftSum3Diff(ni, pj, qi, ra, qa, ri, qj, rk, qk, rj);
    AssociativeStepK(mk * ra, ma * rk, mi * rj, mj * ri, pk * na, pa * nk, pi * nj, pj * ni, pk * qa * ra, pa * qk * ra, pi * qj * ra, pj * qi * ra, pa * qa * rk, pi * qi * rk, pj * qj * rk, pk * qk * rk, pi * qa * rj, pa * qi * rj, pj * qk * rj, pk * qj * rj, pj * qa * ri, pa * qj * ri, pk * qi * ri, pi * qk * ri);
  }

  // The four-square identity behind the multiplicative norm.

  /** The square of `x1 - x2 - x3 - x4`, expanded. */
  lemma SquareDiff4(u: real, x1: real, x2: real, x3: real, x4: real)
    requires Expands(u, x1 - x2 - x3 - x4)
    ensures u * u == x1 * x1 + x2 * x2 + x3 * x3 + x4 * x4
                     - 2.0 * (x1 * x2) - 2.0 * (x1 * x3) - 2.0 * (x1 * x4) + 2.0 * (x2 * x3) + 2.0 * (x2 * x4) + 2.0 * (x3 * x4)
  {
  }

  /** The square of `x1 + x2 + x3 - x4`, expanded. */
  lemma SquareSum3Diff(u: real, x1: real, x2: real, x3: real, x4: real)
    requires Expands(u, x1 + x2 + x3 - x4)
    ensures u * u == x1 * x1 + x2 * x2 + x3 * x3 + x4 * x4
                     + 2.0 * (x1 * x2) + 2.0 * (x1 * x3) - 2.0 * (x1 * x4) + 2.0 * (x2 * x3) - 2.0 * (x2 * x4) - 2.0 * (x3 * x4)
  {
  }

  /**
   * Euler's four-square identity for the parts `m` of the Hamilton product of
   * `p` and `q`, whose squared norms are `np`, `nq` and `nm`: the cross terms
   * of the four squares cancel in pairs.
   */
  lemma FourSquareRaw(pa: real, pi: real, pj: real, pk: real, qa: real, qi: real, qj: real, qk: real,
                      ma: real, mi: real, mj: real, mk: real)
    requires Expands(ma, pa * qa - pi * qi - pj * qj - pk * qk)
    requires Expands(mi, pi * qa + pa * qi + pj * qk - pk * qj)
    requires Expands(mj, pj * qa + pa * qj + pk * qi - pi * qk)
    requires Expands(mk, pk * qa + pa * qk + pi * qj - pj * qi)
    ensures ma * ma + mi * mi + mj * mj + mk * mk ==
            (pa * pa + pi * pi + pj * pj + pk * pk) * (qa * qa + qi * qi + qj * qj + qk * qk)
  {
    SquarePartA(pa, pi, pj, pk, qa, qi, qj, qk, ma);
    SquarePartI(pa, pi, pj, pk, qa, qi, qj, qk, mi);
    SquarePartJ(pa, pi, pj, pk, qa, qi, qj, qk, mj);
    SquarePartK(pa, pi, pj, pk, qa, qi, qj, qk, mk);
    FourSquareCancel(ma * ma, mi * mi, mj * mj, mk * mk,
      (pa * qa) * (pa * qa), (pi * qi) * (pi * qi), (pj * qj) * (pj * qj), (pk * qk) * (pk * qk),
      (pi * qa) * (pi * qa), (pa * qi) * (pa * qi), (pj * qk) * (pj * qk), (pk * qj) * (pk * qj),
      (pj * qa) * (pj * qa), (pa * qj) * (pa * qj), (pk * qi) * (pk * qi), (pi * qk) * (pi * qk),
      (pk * qa) * (pk * qa), (pa * qk) * (pa * qk), (pi * qj) * (pi * qj), (pj * qi) * (pj * qi),
      (pa * qa) * (pi * qi), (pa * qa) * (pj * qj), (pa * qa) * (pk * qk), (pi * qi) * (pj * qj),
      (pi * qi) * (pk * qk), (pj * qj) * (pk * qk), (pi * qa) * (pj * qk), (pi * qa) * (pk * qj),
      (pa * qi) * (pj * qk), (pa * qi) * (pk * qj), (pj * qa) * (pk * qi), (pa * qj) * (pi * qk));
    ProductOfNorms(pa, pi, pj, pk, qa, qi, qj, qk);
  }

  /** The product of two sums of four squares, as the sum of the sixteen squared products. */
  lemma ProductOfNorms(pa: real, pi: real, pj: real, pk: real, qa: real, qi: real, qj: real, qk: real)
    ensures (pa * pa + pi * pi + pj * pj + pk * pk) * (qa * qa + qi * qi + qj * qj + qk * qk) ==
            (pa * qa) * (pa * qa) + (pi * qi) * (pi * qi) + (pj * qj) * (pj * qj) + (pk * qk) * (pk * qk) + (pi * qa) * (pi * qa) + (pa * qi) * (pa * qi) + (pj * qk) * (pj * qk) + (pk * qj) * (pk * qj) + (pj * qa) * (pj * qa) + (pa * qj) * (pa * qj) + (pk * qi) * (pk * qi) + (pi * qk) * (pi * qk) + (pk * qa) * (pk * qa) + (pa * qk) * (pa * qk) + (pi * qj) * (pi * qj) + (pj * qi) * (pj * qi)
  {
    ProductOfSums4(pa * pa, pi * pi, pj * pj, pk * pk, qa * qa, qi * qi, qj * qj, qk * qk);
    SquareOfProduct(pa, qa);
    SquareOfProduct(pa, qi);
    SquareOfProduct(pa, qj);
    SquareOfProduct(pa, qk);
    SquareOfProduct(pi, qa);
    SquareOfProduct(pi, qi);
    SquareOfProduct(pi, qj);
    SquareOfProduct(pi, qk);
    SquareOfProduct(pj, qa);
    SquareOfProduct(pj, qi);
    SquareOfProduct(pj, qj);
    SquareOfProduct(pj, qk);
    SquareOfProduct(pk, qa);
    SquareOfProduct(pk, qi);
    SquareOfProduct(pk, qj);
    SquareOfProduct(pk, qk);
  }

  /** The square of the `a` part of the product, with its cross monomials spelled as in the first square they occur in. */
  lemma SquarePartA(pa: real, pi: real, pj: real, pk: real, qa: real, qi: real, qj: real, qk: real, m: real)
    requires Expands(m, pa * qa - pi * qi - pj * qj - pk * qk)
    ensures m * m == (pa * qa) * (pa * qa) + (pi * qi) * (pi * qi) + (pj * qj) * (pj * qj) + (pk * qk) * (pk * qk)
                     - 2.0 * ((pa * qa) * (pi * qi)) - 2.0 * ((pa * qa) * (pj * qj)) - 2.0 * ((pa * qa) * (pk * qk)) + 2.0 * ((pi * qi) * (pj * qj)) + 2.0 * ((pi * qi) * (pk * qk)) + 2.0 * ((pj * qj) * (pk * qk))
  {
    SquareDiff4(m, pa * qa, pi * qi, pj * qj, pk * qk);
  }

  /** The square of the `i` part of the product, with its cross monomials spelled as in the first square they occur in. */
  lemma SquarePartI(pa: real, pi: real, pj: real, pk: real, qa: real, qi: real, qj: real, qk: real, m: real)
    requires Expands(m, pi * qa + pa * qi + pj * qk - pk * qj)
    ensures m * m == (pi * qa) * (pi * qa) + (pa * qi) * (pa * qi) + (pj * qk) * (pj * qk) + (pk * qj) * (pk * qj)
                     + 2.0 * ((pa * qa) * (pi * qi)) + 2.0 * ((pi * qa) * (pj * qk)) - 2.0 * ((pi * qa) * (pk * qj)) + 2.0 * ((pa * qi) * (pj * qk)) - 2.0 * ((pa * qi) * (pk * qj)) - 2.0 * ((pj * qj) * (pk * qk))
  {
    SquareSum3Diff(m, pi * qa, pa * qi, pj * qk, pk * qj);
    SwapFirst(pa, qa, pi, qi);
    SwapSecond(pj, qj, pk, qk);
  }

  /** The square of the `j` part of the product, with its cross monomials spelled as in the first square they occur in. */
  lemma SquarePartJ(pa: real, pi: real, pj: real, pk: real, qa: real, qi: real, qj: real, qk: real, m: real)
    requires Expands(m, pj * qa + pa * qj + pk * qi - pi * qk)
    ensures m * m == (pj * qa) * (pj * qa) + (pa * qj) * (pa * qj) + (pk * qi) * (pk * qi) + (pi * qk) * (pi * qk)
                     + 2.0 * ((pa * qa) * (pj * qj)) + 2.0 * ((pj * qa) * (pk * qi)) - 2.0 * ((pi * qa) * (pj * qk)) + 2.0 * ((pa * qi) * (pk * qj)) - 2.0 * ((pa * qj) * (pi * qk)) - 2.0 * ((pi * qi) * (pk * qk))
  {
    SquareSum3Diff(m, pj * qa, pa * qj, pk * qi, pi * qk);
    SwapFirst(pa, qa, pj, qj);
    SwapFirst(pi, qa, pj, qk);
    SwapSecond(pa, qi, pk, qj);
    SwapFirst(pi, qi, pk, qk);
  }

  /** The square of the `k` part of the product, with its cross monomials spelled as in the first square they occur in. */
  lemma SquarePartK(pa: real, pi: real, pj: real, pk: real, qa: real, qi: real, qj: real, qk: real, m: real)
    requires Expands(m, pk * qa + pa * qk + pi * qj - pj * qi)
    ensures m * m == (pk * qa) * (pk * qa) + (pa * qk) * (pa * qk) + (pi * qj) * (pi * qj) + (pj * qi) * (pj * qi)
                     + 2.0 * ((pa * qa) * (pk * qk)) + 2.0 * ((pi * qa) * (pk * qj)) - 2.0 * ((pj * qa) * (pk * qi)) + 2.0 * ((pa * qj) * (pi * qk)) - 2.0 * ((pa * qi) * (pj * qk)) - 2.0 * ((pi * qi) * (pj * qj))
  {
    SquareSum3Diff(m, pk * qa, pa * qk, pi * qj, pj * qi);
    SwapFirst(pa, qa, pk, qk);
    SwapFirst(pi, qa, pk, qj);
    SwapFirst(pj, qa, pk, qi);
    SwapSecond(pa, qj, pi, qk);
    SwapSecond(pa, qi, pj, qk);
    SwapSecond(pi, qi, pj, qj);
  }

  /** The linear step of the four-square identity: the cross monomials cancel in pairs. */
  lemma FourSquareCancel(ua: real, ui: real, uj: real, uk: real, taa: real, tii: real, tjj: real, tkk: real, tia: real, tai: real, tjk: real, tkj: real, tja: real, taj: real, tki: real, tik: real, tka: real, tak: real, tij: real, tji: real, caiai: real, cajaj: real, cakak: real, cijij: real, cikik: real, cjkjk: real, cijak: real, cikaj: real, cajik: real, cakij: real, cjkai: real, caijk: real)
    requires Expands(ua, taa + tii + tjj + tkk - 2.0 * caiai - 2.0 * cajaj - 2.0 * cakak + 2.0 * cijij + 2.0 * cikik + 2.0 * cjkjk)
    requires Expands(ui, tia + tai + tjk + tkj + 2.0 * caiai + 2.0 * cijak - 2.0 * cikaj + 2.0 * cajik - 2.0 * cakij - 2.0 * cjkjk)
    requires Expands(uj, tja + taj + tki + tik + 2.0 * cajaj + 2.0 * cjkai - 2.0 * cijak + 2.0 * cakij - 2.0 * caijk - 2.0 * cikik)
    requires Expands(uk, tka + tak + tij + tji + 2.0 * cakak + 2.0 * cikaj - 2.0 * cjkai + 2.0 * caijk - 2.0 * cajik - 2.0 * cijij)
    ensures ua + ui + uj + uk == taa + tii + tjj + tkk + tia + tai + tjk + tkj + tja + taj + tki + tik + tka + tak + tij + tji
  {
  }

  /** Exchanging the first factors of two products. */
  lemma SwapFirst(a: real, b: real, c: real, d: real)
    ensures (a * b) * (c * d) == (c * b) * (a * d)
  {
  }

  /** Exchanging the second factors of two products. */
  lemma SwapSecond(a: real, b: real, c: real, d: real)
    ensures (a * b) * (c * d) == (a * d) * (c * b)
  {
  }

  lemma SquareOfProduct(a: real, b: real)
    ensures (a * b) * (a * b) == (a * a) * (b * b)
  {
  }

  /** The product of two sums of four terms, distributed. */
  lemma ProductOfSums4(a1: real, a2: real, a3: real, a4: real, b1: real, b2: real, b3: real, b4: real)
    ensures (a1 + a2 + a3 + a4) * (b1 + b2 + b3 + b4) ==
            a1 * b1 + a1 * b2 + a1 * b3 + a1 * b4 + a2 * b1 + a2 * b2 + a2 * b3 + a2 * b4
            + a3 * b1 + a3 * b2 + a3 * b3 + a3 * b4 + a4 * b1 + a4 * b2 + a4 * b3 + a4 * b4
  {
  }
}
