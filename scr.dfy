/**
 * The standard-formula aggregation of the Solvency Capital Requirement
 * (`calculer_scr_standard`, solvabilite_app/views.py 924-949).
 *
 * The four risk modules (market, credit, life, non-life) are combined with a
 * fixed correlation matrix by the square-root rule; operational risk is then
 * added linearly. The coefficients are the application's own (0.5 between
 * market and non-life, 0.25 everywhere else), not those of Annex IV of
 * Directive 2009/138/EC.
 *
 * Dafny's reals have no square-root operation, so `x ** 0.5` is specified
 * rather than computed: it is the non-negative real whose square is x
 * (EstRacine), and the operations that need it take that root as a parameter.
 */
module ScrStandard {

  import opened Arithmetique

  /** `x ** 0.5` on a non-negative x: the non-negative real whose square is x. */
  ghost predicate EstRacine(x: real, r: real) {
    r >= 0.0 && r * r == x
  }

  /** `scr_base`: the sum of the squares of the four modules that the `+=` steps at views.py 932-936 build. */
  function ScrBase(marche: real, credit: real, vie: real, nonVie: real): real {
    marche * marche + credit * credit + vie * vie + nonVie * nonVie
  }

  /** `correlations`: the sum of the six weighted cross products that the `+=` steps at views.py 938-944 build. */
  function Correlations(marche: real, credit: real, vie: real, nonVie: real): real {
    0.25 * (marche * credit) + 0.25 * (marche * vie) + 0.5 * (marche * nonVie)
    + 0.25 * (credit * vie) + 0.25 * (credit * nonVie) + 0.25 * (vie * nonVie)
  }

  /** The quantity whose square root is taken: `scr_base + 2 * correlations`. */
  function Radicande(marche: real, credit: real, vie: real, nonVie: real): real {
    ScrBase(marche, credit, vie, nonVie) + 2.0 * Correlations(marche, credit, vie, nonVie)
  }

  /**
   * `calculer_scr_standard(marche, credit, vie, non_vie, operationnel)`, where
   * `racine` is the value `(scr_base + 2 * correlations) ** 0.5` evaluates to.
   * The diversified part of the result is the non-negative root of the
   * correlated sum of squares; operational risk sits outside the root.
   */
  function CalculerScrStandard(marche: real, credit: real, vie: real, nonVie: real,
                               operationnel: real, racine: real): (total: real)
    requires EstRacine(Radicande(marche, credit, vie, nonVie), racine)
    ensures total >= operationnel
  {
    racine + operationnel
  }

  /** Number of non-zero modules among the four. */
  function NombreNonNuls(marche: real, credit: real, vie: real, nonVie: real): nat {
    (if marche != 0.0 then 1 else 0) + (if credit != 0.0 then 1 else 0)
    + (if vie != 0.0 then 1 else 0) + (if nonVie != 0.0 then 1 else 0)
  }

  /** The radicand in terms of the squares of the modules and their pairwise products. */
  lemma RadicandeDeveloppee(m: real, c: real, v: real, n: real,
                            sm: real, sc: real, sv: real, sn: real,
                            pmc: real, pmv: real, pmn: real, pcv: real, pcn: real, pvn: real)
    requires sm == m * m && sc == c * c && sv == v * v && sn == n * n
    requires pmc == m * c && pmv == m * v && pmn == m * n
    requires pcv == c * v && pcn == c * n && pvn == v * n
    ensures Radicande(m, c, v, n)
            == sm + sc + sv + sn + 0.5 * pmc + 0.5 * pmv + pmn + 0.5 * pcv + 0.5 * pcn + 0.5 * pvn
  {
  }

  /**
   * The radicand as a weighted sum of eight squares: of c, v, m + c, m + v,
   * m + n, c + v, c + n and v + n.
   */
  lemma RadicandeSommeDeCarres(m: real, c: real, v: real, n: real,
                               mc: real, mv: real, mn: real, cv: real, cn: real, vn: real,
                               s1: real, s2: real, s3: real, s4: real,
                               s5: real, s6: real, s7: real, s8: real)
    requires mc == m + c && mv == m + v && mn == m + n && cv == c + v && cn == c + n && vn == v + n
    requires s1 == c * c && s2 == v * v && s3 == mc * mc && s4 == mv * mv
    requires s5 == mn * mn && s6 == cv * cv && s7 == cn * cn && s8 == vn * vn
    ensures Radicande(m, c, v, n)
            == 0.25 * s1 + 0.25 * s2 + 0.25 * s3 + 0.25 * s4 + 0.5 * s5 + 0.25 * s6 + 0.25 * s7 + 0.25 * s8
  {
  }

  lemma SommePondereePositive(q: real, s1: real, s2: real, s3: real, s4: real,
                              s5: real, s6: real, s7: real, s8: real)
    requires q == 0.25 * s1 + 0.25 * s2 + 0.25 * s3 + 0.25 * s4 + 0.5 * s5 + 0.25 * s6 + 0.25 * s7 + 0.25 * s8
    requires s1 >= 0.0 && s2 >= 0.0 && s3 >= 0.0 && s4 >= 0.0
    requires s5 >= 0.0 && s6 >= 0.0 && s7 >= 0.0 && s8 >= 0.0
    ensures q >= 0.0
    ensures q == 0.0 ==> s1 == 0.0 && s2 == 0.0 && s3 == 0.0 && s8 == 0.0
  {
  }

  /** A weighted sum of the eight squares is zero only when the four modules are. */
  lemma SommeDeCarresDefinie(q: real, m: real, c: real, v: real, n: real, mc: real, vn: real,
                             s1: real, s2: real, s3: real, s4: real,
                             s5: real, s6: real, s7: real, s8: real)
    requires mc == m + c && vn == v + n
    requires s1 == c * c && s2 == v * v && s3 == mc * mc && s8 == vn * vn
    requires s4 >= 0.0 && s5 >= 0.0 && s6 >= 0.0 && s7 >= 0.0
    requires q == 0.25 * s1 + 0.25 * s2 + 0.25 * s3 + 0.25 * s4 + 0.5 * s5 + 0.25 * s6 + 0.25 * s7 + 0.25 * s8
    ensures q >= 0.0
    ensures q == 0.0 ==> m == 0.0 && c == 0.0 && v == 0.0 && n == 0.0
  {
    CarreNonNegatif(c, s1);
    CarreNonNegatif(v, s2);
    CarreNonNegatif(mc, s3);
    CarreNonNegatif(vn, s8);
    SommePondereePositive(q, s1, s2, s3, s4, s5, s6, s7, s8);
    if q == 0.0 {
      CarreNul(c, s1);
      CarreNul(v, s2);
      CarreNul(mc, s3);
      CarreNul(vn, s8);
    }
  }

  lemma RadicandeNulle()
    ensures Radicande(0.0, 0.0, 0.0, 0.0) == 0.0
  {
  }

  /**
   * The matrix of the code is positive definite: the quantity under the root
   * is never negative, whatever the sign of the modules, and it is zero only
   * when all four modules are zero. So `** 0.5` always yields a real.
   */
  lemma RadicandeDefiniePositive(m: real, c: real, v: real, n: real)
    ensures Radicande(m, c, v, n) >= 0.0
    ensures Radicande(m, c, v, n) == 0.0 <==> (m == 0.0 && c == 0.0 && v == 0.0 && n == 0.0)
  {
    var mc, mv, mn, cv, cn, vn := m + c, m + v, m + n, c + v, c + n, v + n;
    var s1, s2, s3, s4 := c * c, v * v, mc * mc, mv * mv;
    var s5, s6, s7, s8 := mn * mn, cv * cv, cn * cn, vn * vn;
    RadicandeSommeDeCarres(m, c, v, n, mc, mv, mn, cv, cn, vn, s1, s2, s3, s4, s5, s6, s7, s8);
    CarreNonNegatif(mv, s4);
    CarreNonNegatif(mn, s5);
    CarreNonNegatif(cv, s6);
    CarreNonNegatif(cn, s7);
    SommeDeCarresDefinie(Radicande(m, c, v, n), m, c, v, n, mc, vn, s1, s2, s3, s4, s5, s6, s7, s8);
    if m == 0.0 && c == 0.0 && v == 0.0 && n == 0.0 {
      RadicandeNulle();
    }
  }

  /** Taking the root preserves order. */
  lemma RacineCroissante(x: real, y: real, r: real, s: real)
    requires EstRacine(x, r) && EstRacine(y, s) && x <= y
    ensures r <= s
  {
    if r > s {
      CarreStrictCroissant(r, s, x, y);
    }
  }

  /** The root of a positive value is positive. */
  lemma RacinePositive(x: real, r: real)
    requires EstRacine(x, r) && x > 0.0
    ensures r > 0.0
  {
    if r == 0.0 {
      assert false;
    }
  }

  /**
   * As soon as one module is non-zero the diversified part of the SCR is
   * positive, so the SCR strictly exceeds the operational charge.
   */
  lemma ScrPositif(m: real, c: real, v: real, n: real, operationnel: real, racine: real)
    requires EstRacine(Radicande(m, c, v, n), racine)
    requires m != 0.0 || c != 0.0 || v != 0.0 || n != 0.0
    ensures CalculerScrStandard(m, c, v, n, operationnel, racine) > operationnel
  {
    var q := Radicande(m, c, v, n);
    RadicandeDefiniePositive(m, c, v, n);
    RacinePositive(q, racine);
  }

  /** The root is a function of its argument: two roots of one value agree. */
  lemma RacineUnique(x: real, r: real, s: real)
    requires EstRacine(x, r) && EstRacine(x, s)
    ensures r == s
  {
    RacineCroissante(x, x, r, s);
    RacineCroissante(x, x, s, r);
  }

  /**
   * The SCR is characterised by its square: a value t is the result exactly
   * when t minus the operational charge is non-negative and squares to
   * `scr_base + 2 * correlations`.
   */
  lemma ScrCaracterise(m: real, c: real, v: real, n: real, operationnel: real, racine: real, t: real)
    requires EstRacine(Radicande(m, c, v, n), racine)
    ensures t == CalculerScrStandard(m, c, v, n, operationnel, racine)
            <==> (t - operationnel >= 0.0
                  && (t - operationnel) * (t - operationnel) == ScrBase(m, c, v, n) + 2.0 * Correlations(m, c, v, n))
  {
    var d := t - operationnel;
    var q := Radicande(m, c, v, n);
    if d >= 0.0 && d * d == q {
      RacineUnique(q, d, racine);
    }
  }

  /** With all four modules zero, the result is the operational charge alone. */
  lemma ScrSansModules(m: real, c: real, v: real, n: real, operationnel: real, racine: real)
    requires m == 0.0 && c == 0.0 && v == 0.0 && n == 0.0
    requires EstRacine(Radicande(m, c, v, n), racine)
    ensures CalculerScrStandard(m, c, v, n, operationnel, racine) == operationnel
  {
    RadicandeDefiniePositive(m, c, v, n);
    RacineUnique(0.0, racine, 0.0);
  }

  /**
   * A single non-negative module contributes exactly itself: no correlation
   * term applies, and operational risk is added on top.
   */
  lemma ScrModuleUnique(m: real, c: real, v: real, n: real, operationnel: real, racine: real)
    requires m >= 0.0 && c >= 0.0 && v >= 0.0 && n >= 0.0
    requires NombreNonNuls(m, c, v, n) <= 1
    requires EstRacine(Radicande(m, c, v, n), racine)
    ensures CalculerScrStandard(m, c, v, n, operationnel, racine) == m + c + v + n + operationnel
  {
    var a := m + c + v + n;
    var sa := a * a;
    if m != 0.0 {
      assert Radicande(m, 0.0, 0.0, 0.0) == m * m;
    } else if c != 0.0 {
      assert Radicande(0.0, c, 0.0, 0.0) == c * c;
    } else if v != 0.0 {
      assert Radicande(0.0, 0.0, v, 0.0) == v * v;
    } else {
      assert Radicande(0.0, 0.0, 0.0, n) == n * n;
    }
    RacineUnique(sa, racine, a);
  }

  /** With non-negative inputs the result dominates every module and the operational charge. */
  lemma ScrDomineChaqueModule(m: real, c: real, v: real, n: real, operationnel: real, racine: real)
    requires m >= 0.0 && c >= 0.0 && v >= 0.0 && n >= 0.0 && operationnel >= 0.0
    requires EstRacine(Radicande(m, c, v, n), racine)
    ensures var total := CalculerScrStandard(m, c, v, n, operationnel, racine);
            total >= m && total >= c && total >= v && total >= n && total >= operationnel
  {
    var q := Radicande(m, c, v, n);
    var sm, sc, sv, sn := m * m, c * c, v * v, n * n;
    var pmc, pmv, pmn := m * c, m * v, m * n;
    var pcv, pcn, pvn := c * v, c * n, v * n;
    RadicandeDeveloppee(m, c, v, n, sm, sc, sv, sn, pmc, pmv, pmn, pcv, pcn, pvn);
    CarreNonNegatif(m, sm);
    CarreNonNegatif(c, sc);
    CarreNonNegatif(v, sv);
    CarreNonNegatif(n, sn);
    ProduitPositif(m, c, pmc);
    ProduitPositif(m, v, pmv);
    ProduitPositif(m, n, pmn);
    ProduitPositif(c, v, pcv);
    ProduitPositif(c, n, pcn);
    ProduitPositif(v, n, pvn);
    RacineCroissante(sm, q, m, racine);
    RacineCroissante(sc, q, c, racine);
    RacineCroissante(sv, q, v, racine);
    RacineCroissante(sn, q, n, racine);
  }

  /** Raising any module (all inputs non-negative) never lowers the result. */
  lemma ScrCroissant(m: real, c: real, v: real, n: real, m': real, c': real, v': real, n': real,
                     operationnel: real, racine: real, racine': real)
    requires 0.0 <= m <= m' && 0.0 <= c <= c' && 0.0 <= v <= v' && 0.0 <= n <= n'
    requires EstRacine(Radicande(m, c, v, n), racine)
    requires EstRacine(Radicande(m', c', v', n'), racine')
    ensures CalculerScrStandard(m, c, v, n, operationnel, racine)
            <= CalculerScrStandard(m', c', v', n', operationnel, racine')
  {
    var sm, sc, sv, sn := m * m, c * c, v * v, n * n;
    var pmc, pmv, pmn := m * c, m * v, m * n;
    var pcv, pcn, pvn := c * v, c * n, v * n;
    var sm', sc', sv', sn' := m' * m', c' * c', v' * v', n' * n';
    var pmc', pmv', pmn' := m' * c', m' * v', m' * n';
    var pcv', pcn', pvn' := c' * v', c' * n', v' * n';
    RadicandeDeveloppee(m, c, v, n, sm, sc, sv, sn, pmc, pmv, pmn, pcv, pcn, pvn);
    RadicandeDeveloppee(m', c', v', n', sm', sc', sv', sn', pmc', pmv', pmn', pcv', pcn', pvn');
    ProduitCroissant(m, m, m', m', sm, sm');
    ProduitCroissant(c, c, c', c', sc, sc');
    ProduitCroissant(v, v, v', v', sv, sv');
    ProduitCroissant(n, n, n', n', sn, sn');
    ProduitCroissant(m, c, m', c', pmc, pmc');
    ProduitCroissant(m, v, m', v', pmv, pmv');
    ProduitCroissant(m, n, m', n', pmn, pmn');
    ProduitCroissant(c, v, c', v', pcv, pcv');
    ProduitCroissant(c, n, c', n', pcn, pcn');
    ProduitCroissant(v, n, v', n', pvn, pvn');
    RacineCroissante(Radicande(m, c, v, n), Radicande(m', c', v', n'), racine, racine');
  }

  lemma CarreDeLaSomme(m: real, c: real, v: real, n: real, a: real, sa: real,
                       sm: real, sc: real, sv: real, sn: real,
                       pmc: real, pmv: real, pmn: real, pcv: real, pcn: real, pvn: real)
    requires a == m + c + v + n && sa == a * a
    requires sm == m * m && sc == c * c && sv == v * v && sn == n * n
    requires pmc == m * c && pmv == m * v && pmn == m * n
    requires pcv == c * v && pcn == c * n && pvn == v * n
    ensures sa == sm + sc + sv + sn + 2.0 * (pmc + pmv + pmn + pcv + pcn + pvn)
  {
  }

  /**
   * Diversification: with non-negative modules the correlated result never
   * exceeds the plain sum of the modules and the operational charge.
   */
  lemma ScrMajoreParSomme(m: real, c: real, v: real, n: real, operationnel: real, racine: real)
    requires m >= 0.0 && c >= 0.0 && v >= 0.0 && n >= 0.0
    requires EstRacine(Radicande(m, c, v, n), racine)
    ensures CalculerScrStandard(m, c, v, n, operationnel, racine) <= m + c + v + n + operationnel
  {
    var a := m + c + v + n;
    var sa := a * a;
    var sm, sc, sv, sn := m * m, c * c, v * v, n * n;
    var pmc, pmv, pmn := m * c, m * v, m * n;
    var pcv, pcn, pvn := c * v, c * n, v * n;
    RadicandeDeveloppee(m, c, v, n, sm, sc, sv, sn, pmc, pmv, pmn, pcv, pcn, pvn);
    CarreDeLaSomme(m, c, v, n, a, sa, sm, sc, sv, sn, pmc, pmv, pmn, pcv, pcn, pvn);
    ProduitPositif(m, c, pmc);
    ProduitPositif(m, v, pmv);
    ProduitPositif(m, n, pmn);
    ProduitPositif(c, v, pcv);
    ProduitPositif(c, n, pcn);
    ProduitPositif(v, n, pvn);
    RacineCroissante(Radicande(m, c, v, n), sa, racine, a);
  }

  /** Taking the root preserves strict order. */
  lemma RacineStricteCroissante(x: real, y: real, r: real, s: real)
    requires EstRacine(x, r) && EstRacine(y, s) && x < y
    ensures r < s
  {
    RacineCroissante(x, y, r, s);
  }

  /**
   * Diversification is strict: with non-negative modules of which at least
   * two are non-zero, the correlated result is strictly below the plain sum
   * of the modules and the operational charge. With `ScrModuleUnique` this
   * makes the plain sum exact precisely when at most one module is non-zero.
   */
  lemma ScrDiversifie(m: real, c: real, v: real, n: real, operationnel: real, racine: real)
    requires m >= 0.0 && c >= 0.0 && v >= 0.0 && n >= 0.0
    requires NombreNonNuls(m, c, v, n) >= 2
    requires EstRacine(Radicande(m, c, v, n), racine)
    ensures CalculerScrStandard(m, c, v, n, operationnel, racine) < m + c + v + n + operationnel
  {
    var a := m + c + v + n;
    var sa := a * a;
    var sm, sc, sv, sn := m * m, c * c, v * v, n * n;
    var pmc, pmv, pmn := m * c, m * v, m * n;
    var pcv, pcn, pvn := c * v, c * n, v * n;
    RadicandeDeveloppee(m, c, v, n, sm, sc, sv, sn, pmc, pmv, pmn, pcv, pcn, pvn);
    CarreDeLaSomme(m, c, v, n, a, sa, sm, sc, sv, sn, pmc, pmv, pmn, pcv, pcn, pvn);
    ProduitPositif(m, c, pmc);
    ProduitPositif(m, v, pmv);
    ProduitPositif(m, n, pmn);
    ProduitPositif(c, v, pcv);
    ProduitPositif(c, n, pcn);
    ProduitPositif(v, n, pvn);
    if m > 0.0 && c > 0.0 {
      ProduitStrictementPositif(m, c, pmc);
    } else if m > 0.0 && v > 0.0 {
      ProduitStrictementPositif(m, v, pmv);
    } else if m > 0.0 && n > 0.0 {
      ProduitStrictementPositif(m, n, pmn);
    } else if c > 0.0 && v > 0.0 {
      ProduitStrictementPositif(c, v, pcv);
    } else if c > 0.0 && n > 0.0 {
      ProduitStrictementPositif(c, n, pcn);
    } else {
      ProduitStrictementPositif(v, n, pvn);
    }
    RacineStricteCroissante(Radicande(m, c, v, n), sa, racine, a);
  }

  /**
   * The worked case (10, 5, 8, 12) with operational charge 2: the sum of
   * squares is 333, the correlation sum 141.5, the radicand 616, and the
   * result lies strictly between 26.8 and 26.9 (about 26.82).
   */
  lemma ScrExemple(racine: real)
    requires EstRacine(Radicande(10.0, 5.0, 8.0, 12.0), racine)
    ensures ScrBase(10.0, 5.0, 8.0, 12.0) == 333.0
    ensures Correlations(10.0, 5.0, 8.0, 12.0) == 141.5
    ensures racine * racine == 616.0
    ensures 26.8 < CalculerScrStandard(10.0, 5.0, 8.0, 12.0, 2.0, racine) < 26.9
  {
    assert Radicande(10.0, 5.0, 8.0, 12.0) == 616.0;
    RacineCroissante(615.04, 616.0, 24.8, racine);
    RacineCroissante(616.0, 620.01, racine, 24.9);
  }
}
