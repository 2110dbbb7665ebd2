/**
 * The solvency ratio as the server computes it, wherever it does: in both
 * calculation views (solvabilite_app/views.py 324 and 456) and in
 * `CalculSCR.ratio_solvabilite` (solvabilite_app/models.py 215-219). Own
 * funds in percent of the SCR, and 0 when the SCR is not positive.
 */
module Ratio {

  import opened Statut

  /** `(fonds_propres / scr * 100) if scr > 0 else 0`. */
  function RatioSolvabilite(fondsPropres: real, scr: real): (ratio: real)
    ensures scr <= 0.0 ==> ratio == 0.0
    ensures scr > 0.0 ==> ratio * scr == fondsPropres * 100.0
  {
    if scr > 0.0 then fondsPropres / scr * 100.0 else 0.0
  }

  lemma QuotientComparaison(a: real, d: real, q: real)
    requires d > 0.0 && q == a / d
    ensures q >= 1.0 <==> a >= d
  {
  }

  lemma QuotientSigne(a: real, d: real, q: real)
    requires d > 0.0 && q == a / d
    ensures q >= 0.0 <==> a >= 0.0
  {
  }

  lemma QuotientCroissant(a: real, b: real, d: real, qa: real, qb: real)
    requires d > 0.0 && qa == a / d && qb == b / d && a <= b
    ensures qa <= qb
  {
  }

  /** For a positive SCR, a ratio of 100 % means exactly that own funds cover the SCR. */
  lemma RatioCentPourCent(fondsPropres: real, scr: real)
    requires scr > 0.0
    ensures RatioSolvabilite(fondsPropres, scr) >= 100.0 <==> fondsPropres >= scr
    ensures RatioSolvabilite(fondsPropres, scr) >= 0.0 <==> fondsPropres >= 0.0
  {
    QuotientComparaison(fondsPropres, scr, fondsPropres / scr);
    QuotientSigne(fondsPropres, scr, fondsPropres / scr);
  }

  /** More own funds never lower the ratio. */
  lemma RatioCroissant(fondsPropres: real, fondsPropres': real, scr: real)
    requires fondsPropres <= fondsPropres'
    ensures RatioSolvabilite(fondsPropres, scr) <= RatioSolvabilite(fondsPropres', scr)
  {
    if scr > 0.0 {
      QuotientCroissant(fondsPropres, fondsPropres', scr, fondsPropres / scr, fondsPropres' / scr);
    }
  }

  /**
   * The status the views derive from the ratio: "Non Conforme" exactly when
   * own funds fall short of a positive SCR, and always when the SCR is not
   * positive, whatever the own funds.
   */
  lemma StatutDuRatio(fondsPropres: real, scr: real)
    ensures scr > 0.0 ==>
              (DeterminerStatutSolvabilite(RatioSolvabilite(fondsPropres, scr)).0 == "Non Conforme"
               <==> fondsPropres < scr)
    ensures scr <= 0.0 ==>
              DeterminerStatutSolvabilite(RatioSolvabilite(fondsPropres, scr)) == ("Non Conforme", "danger")
  {
    if scr > 0.0 {
      RatioCentPourCent(fondsPropres, scr);
    }
  }

  /** Own funds of 150 against an SCR of 100 give 150 %, "Solide". */
  lemma RatioExemple()
    ensures RatioSolvabilite(150.0, 100.0) == 150.0
    ensures DeterminerStatutSolvabilite(RatioSolvabilite(150.0, 100.0)) == ("Solide", "info")
    ensures RatioSolvabilite(150.0, 0.0) == 0.0
    ensures RatioSolvabilite(150.0, -10.0) == 0.0
  {
  }
}
