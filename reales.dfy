/** `min`/`max` on numbers and monotonicity of real multiplication, stated once for the factor proofs. */
module Reales {

  /** Python's `min(a, b)` on numbers. */
  function Min(a: real, b: real): (r: real)
    ensures r <= a && r <= b && (r == a || r == b)
  {
    if b < a then b else a
  }

  /** Python's `max(a, b)` on numbers. */
  function Max(a: real, b: real): (r: real)
    ensures r >= a && r >= b && (r == a || r == b)
  {
    if b > a then b else a
  }

  /** Multiplying both sides of an inequality by a non-negative number keeps it. */
  lemma MulLe(a: real, b: real, c: real)
    requires a <= b && 0.0 <= c
    ensures a * c <= b * c
  {
  }

  /** A product of numbers bounded below by non-negative bounds is bounded below by the product of the bounds. */
  lemma MulGe(x: real, lo: real, y: real, ylo: real)
    requires 0.0 <= lo <= x && 0.0 <= ylo <= y
    ensures lo * ylo <= x * y
  {
    MulLe(lo, x, ylo);
    MulLe(ylo, y, x);
  }

  /** The same bound from above. */
  lemma MulLeBoth(x: real, hi: real, y: real, yhi: real)
    requires 0.0 <= x <= hi && 0.0 <= y <= yhi
    ensures x * y <= hi * yhi
  {
    MulLe(x, hi, y);
    MulLe(y, yhi, hi);
  }

  /** Multiplying a strict inequality by a positive number keeps it strict. */
  lemma MulLt(a: real, b: real, c: real)
    requires a < b && 0.0 < c
    ensures a * c < b * c
  {
  }

  /** The product of four multipliers, the shape of the effort multiplier. */
  function Producto4(a: real, b: real, c: real, d: real): real
  {
    a * b * c * d
  }

  /** A running value multiplied by four multipliers one at a time ends at their product. */
  lemma Acumular4(a: real, b: real, c: real, d: real, conA: real, conB: real, conC: real, conD: real)
    requires conA == a && conB == conA * b && conC == conB * c && conD == conC * d
    ensures conD == Producto4(a, b, c, d)
  {
  }

  /** A quantity multiplied by four multipliers one at a time ends at the quantity times their product. */
  lemma Escalar4(x: real, a: real, b: real, c: real, d: real, conA: real, conB: real, conC: real, conD: real)
    requires conA == x * a && conB == conA * b && conC == conB * c && conD == conC * d
    ensures conD == x * Producto4(a, b, c, d)
  {
  }

  /** With the first multiplier at least `lo >= 0` and the others at least 1, the product is at least `lo`. */
  lemma Producto4AlMenos(a: real, b: real, c: real, d: real, lo: real)
    requires 0.0 <= lo <= a && 1.0 <= b && 1.0 <= c && 1.0 <= d
    ensures lo <= Producto4(a, b, c, d)
  {
    MulGe(a, lo, b, 1.0);
    MulGe(a * b, lo, c, 1.0);
    MulGe(a * b * c, lo, d, 1.0);
  }

  /** Replacing the factors of a product by equal ones keeps it; stated on its own so that
      the solver does not have to rewrite inside a product of function values. */
  lemma MulCongruente(t: real, x: real, y: real, x2: real, y2: real)
    requires t == x * y && x == x2 && y == y2
    ensures t == x2 * y2
  {
  }

  /** The product of five multipliers, the shape of the complexity and business factors. */
  function Producto5(a: real, b: real, c: real, d: real, e: real): real
  {
    a * b * c * d * e
  }

  /** A running factor multiplied by five multipliers one at a time ends at their product. */
  lemma Acumular5(a: real, b: real, c: real, d: real, e: real, conA: real, conB: real, conC: real, conD: real, conE: real)
    requires conA == a && conB == conA * b && conC == conB * c && conD == conC * d && conE == conD * e
    ensures conE == Producto5(a, b, c, d, e)
  {
  }

  /** With the first multiplier at least `lo >= 0` and the others at least 1, the product is at least `lo`. */
  lemma Producto5AlMenos(a: real, b: real, c: real, d: real, e: real, lo: real)
    requires 0.0 <= lo <= a && 1.0 <= b && 1.0 <= c && 1.0 <= d && 1.0 <= e
    ensures lo <= Producto5(a, b, c, d, e)
  {
    Producto4AlMenos(a, b, c, d, lo);
    MulGe(Producto4(a, b, c, d), lo, e, 1.0);
  }

  /** The product of non-negative multipliers grows with each of them. */
  lemma Producto5Monotono(a1: real, b1: real, c1: real, d1: real, e1: real, a2: real, b2: real, c2: real, d2: real, e2: real)
    requires 0.0 <= a1 <= a2 && 0.0 <= b1 <= b2 && 0.0 <= c1 <= c2 && 0.0 <= d1 <= d2 && 0.0 <= e1 <= e2
    ensures Producto5(a1, b1, c1, d1, e1) <= Producto5(a2, b2, c2, d2, e2)
  {
    MulLeBoth(a1, a2, b1, b2);
    MulGe(a1, 0.0, b1, 0.0);
    MulLeBoth(a1 * b1, a2 * b2, c1, c2);
    MulGe(a1 * b1, 0.0, c1, 0.0);
    MulLeBoth(a1 * b1 * c1, a2 * b2 * c2, d1, d2);
    MulGe(a1 * b1 * c1, 0.0, d1, 0.0);
    MulLeBoth(a1 * b1 * c1 * d1, a2 * b2 * c2 * d2, e1, e2);
  }

  /** The product of nine multipliers, the shape of the regulatory factor. */
  function Producto9(a: real, b: real, c: real, d: real, e: real, f: real, g: real, h: real, i: real): real
  {
    a * b * c * d * e * f * g * h * i
  }

  /** A running factor multiplied by nine multipliers one at a time ends at their product. */
  lemma Acumular9(a: real, b: real, c: real, d: real, e: real, f: real, g: real, h: real, i: real,
                  conA: real, conB: real, conC: real, conD: real, conE: real, conF: real, conG: real, conH: real, conI: real)
    requires conA == a && conB == conA * b && conC == conB * c && conD == conC * d && conE == conD * e
    requires conF == conE * f && conG == conF * g && conH == conG * h && conI == conH * i
    ensures conI == Producto9(a, b, c, d, e, f, g, h, i)
  {
  }

  /** The product of a list of multipliers, left to right. */
  function Producto(xs: seq<real>): real
  {
    if xs == [] then 1.0 else Producto(xs[..|xs| - 1]) * xs[|xs| - 1]
  }

  /** One more multiplier multiplies the running product. */
  lemma ProductoAgregar(xs: seq<real>, x: real)
    ensures Producto(xs + [x]) == Producto(xs) * x
  {
    assert (xs + [x])[..|xs|] == xs;
  }

  /** Nine multipliers appended one at a time have the product `Producto9`. */
  lemma ProductoLista9(a: real, b: real, c: real, d: real, e: real, f: real, g: real, h: real, i: real)
    ensures Producto([] + [a] + [b] + [c] + [d] + [e] + [f] + [g] + [h] + [i]) == Producto9(a, b, c, d, e, f, g, h, i)
  {
    var x1 := [] + [a];
    var x2 := x1 + [b];
    var x3 := x2 + [c];
    var x4 := x3 + [d];
    var x5 := x4 + [e];
    var x6 := x5 + [f];
    var x7 := x6 + [g];
    var x8 := x7 + [h];
    var x9 := x8 + [i];
    ProductoAgregar([], a);
    ProductoAgregar(x1, b);
    ProductoAgregar(x2, c);
    ProductoAgregar(x3, d);
    ProductoAgregar(x4, e);
    ProductoAgregar(x5, f);
    ProductoAgregar(x6, g);
    ProductoAgregar(x7, h);
    ProductoAgregar(x8, i);
    Acumular9(a, b, c, d, e, f, g, h, i, Producto(x1), Producto(x2), Producto(x3), Producto(x4), Producto(x5),
      Producto(x6), Producto(x7), Producto(x8), Producto(x9));
  }

  /** The product of nine multipliers of at least 1 is at least 1, and grows with each of them. */
  lemma Producto9Monotono(a1: real, b1: real, c1: real, d1: real, e1: real, f1: real, g1: real, h1: real, i1: real,
                          a2: real, b2: real, c2: real, d2: real, e2: real, f2: real, g2: real, h2: real, i2: real)
    requires 1.0 <= a1 <= a2 && 1.0 <= b1 <= b2 && 1.0 <= c1 <= c2 && 1.0 <= d1 <= d2 && 1.0 <= e1 <= e2
    requires 1.0 <= f1 <= f2 && 1.0 <= g1 <= g2 && 1.0 <= h1 <= h2 && 1.0 <= i1 <= i2
    ensures 1.0 <= Producto9(a1, b1, c1, d1, e1, f1, g1, h1, i1) <= Producto9(a2, b2, c2, d2, e2, f2, g2, h2, i2)
  {
    var x1, x2 := a1, a2;
    MulPaso(x1, x2, b1, b2);
    x1, x2 := x1 * b1, x2 * b2;
    MulPaso(x1, x2, c1, c2);
    x1, x2 := x1 * c1, x2 * c2;
    MulPaso(x1, x2, d1, d2);
    x1, x2 := x1 * d1, x2 * d2;
    MulPaso(x1, x2, e1, e2);
    x1, x2 := x1 * e1, x2 * e2;
    MulPaso(x1, x2, f1, f2);
    x1, x2 := x1 * f1, x2 * f2;
    MulPaso(x1, x2, g1, g2);
    x1, x2 := x1 * g1, x2 * g2;
    MulPaso(x1, x2, h1, h2);
    x1, x2 := x1 * h1, x2 * h2;
    MulPaso(x1, x2, i1, i2);
  }

  /** One step of `Producto9Monotono`. */
  lemma MulPaso(x1: real, x2: real, y1: real, y2: real)
    requires 1.0 <= x1 <= x2 && 1.0 <= y1 <= y2
    ensures 1.0 <= x1 * y1 <= x2 * y2
  {
    MulLeBoth(x1, x2, y1, y2);
    MulGe(x1, 1.0, y1, 1.0);
  }

  /** The product of ten multipliers, the shape of the confidence and valuation-adjustment factors. */
  function Producto10(a: real, b: real, c: real, d: real, e: real, f: real, g: real, h: real, i: real, j: real): real
  {
    Producto5(a, b, c, d, e) * Producto5(f, g, h, i, j)
  }

  /** A running factor multiplied by ten multipliers one at a time ends at their product. */
  lemma Acumular10(a: real, b: real, c: real, d: real, e: real, f: real, g: real, h: real, i: real, j: real,
                   conA: real, conB: real, conC: real, conD: real, conE: real, conF: real, conG: real, conH: real, conI: real, conJ: real)
    requires conA == a && conB == conA * b && conC == conB * c && conD == conC * d && conE == conD * e
    requires conF == conE * f && conG == conF * g && conH == conG * h && conI == conH * i && conJ == conI * j
    ensures conJ == Producto10(a, b, c, d, e, f, g, h, i, j)
  {
  }

  /** The product of ten non-negative multipliers is non-negative and grows with each of them. */
  lemma Producto10Monotono(a1: real, b1: real, c1: real, d1: real, e1: real, f1: real, g1: real, h1: real, i1: real, j1: real,
                           a2: real, b2: real, c2: real, d2: real, e2: real, f2: real, g2: real, h2: real, i2: real, j2: real)
    requires 0.0 <= a1 <= a2 && 0.0 <= b1 <= b2 && 0.0 <= c1 <= c2 && 0.0 <= d1 <= d2 && 0.0 <= e1 <= e2
    requires 0.0 <= f1 <= f2 && 0.0 <= g1 <= g2 && 0.0 <= h1 <= h2 && 0.0 <= i1 <= i2 && 0.0 <= j1 <= j2
    ensures 0.0 <= Producto10(a1, b1, c1, d1, e1, f1, g1, h1, i1, j1) <= Producto10(a2, b2, c2, d2, e2, f2, g2, h2, i2, j2)
  {
    Producto5Monotono(0.0, 0.0, 0.0, 0.0, 0.0, a1, b1, c1, d1, e1);
    Producto5Monotono(0.0, 0.0, 0.0, 0.0, 0.0, f1, g1, h1, i1, j1);
    Producto5Monotono(a1, b1, c1, d1, e1, a2, b2, c2, d2, e2);
    Producto5Monotono(f1, g1, h1, i1, j1, f2, g2, h2, i2, j2);
    MulPasoNoNegativo(Producto5(a1, b1, c1, d1, e1), Producto5(a2, b2, c2, d2, e2),
      Producto5(f1, g1, h1, i1, j1), Producto5(f2, g2, h2, i2, j2));
  }

  /** One step of `Producto10Monotono`. */
  lemma MulPasoNoNegativo(x1: real, x2: real, y1: real, y2: real)
    requires 0.0 <= x1 <= x2 && 0.0 <= y1 <= y2
    ensures 0.0 <= x1 * y1 <= x2 * y2
  {
    MulLeBoth(x1, x2, y1, y2);
    MulGe(x1, 0.0, y1, 0.0);
  }
}
