/**
 * Facts about products of reals. Every product is named by a variable and
 * bound by an equality (`p == a * b`), and every conclusion is stated about
 * that variable, so that the lemmas of the capital-requirement modules
 * combine them by linear reasoning alone.
 */
module Arithmetique {

  lemma ProduitStrictementPositif(a: real, b: real, p: real)
    requires p == a * b && a > 0.0 && b > 0.0
    ensures p > 0.0
  {
  }

  lemma ProduitPositif(a: real, b: real, p: real)
    requires p == a * b && a >= 0.0 && b >= 0.0
    ensures p >= 0.0
  {
    if a > 0.0 && b > 0.0 {
      ProduitStrictementPositif(a, b, p);
    }
  }

  lemma CarreNonNegatif(x: real, s: real)
    requires s == x * x
    ensures s >= 0.0
  {
  }

  lemma CarrePositif(x: real, s: real)
    requires s == x * x && x != 0.0
    ensures s > 0.0
  {
    if x > 0.0 {
      ProduitStrictementPositif(x, x, s);
    } else {
      ProduitStrictementPositif(-x, -x, s);
    }
  }

  /** Only zero squares to zero. */
  lemma CarreNul(x: real, s: real)
    requires s == x * x && s == 0.0
    ensures x == 0.0
  {
    if x != 0.0 {
      CarrePositif(x, s);
    }
  }

  lemma DiffCarres(r: real, s: real, x: real, y: real, d: real, t: real, p: real)
    requires x == r * r && y == s * s && d == r - s && t == r + s && p == d * t
    ensures x - y == p
  {
  }

  /** Squaring is strictly increasing on the non-negative reals. */
  lemma CarreStrictCroissant(r: real, s: real, x: real, y: real)
    requires x == r * r && y == s * s && r > s >= 0.0
    ensures x > y
  {
    var d, t := r - s, r + s;
    var p := d * t;
    ProduitStrictementPositif(d, t, p);
    DiffCarres(r, s, x, y, d, t, p);
  }

  lemma DiffProduits(a: real, b: real, a': real, b': real, p: real, p': real,
                     da: real, db: real, q1: real, q2: real)
    requires p == a * b && p' == a' * b' && da == a' - a && db == b' - b
    requires q1 == da * b' && q2 == a * db
    ensures p' - p == q1 + q2
  {
  }

  /** The product of non-negative reals grows with each factor. */
  lemma ProduitCroissant(a: real, b: real, a': real, b': real, p: real, p': real)
    requires p == a * b && p' == a' * b'
    requires 0.0 <= a <= a' && 0.0 <= b <= b'
    ensures p <= p'
  {
    var da, db := a' - a, b' - b;
    var q1, q2 := da * b', a * db;
    ProduitPositif(da, b', q1);
    ProduitPositif(a, db, q2);
    DiffProduits(a, b, a', b', p, p', da, db, q1, q2);
  }
}
