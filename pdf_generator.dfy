/**
 * The four-band label of the PDF report generator (`get_statut_ratio`,
 * solvabilite_app/utils/pdf_generator.py 88-97). It has no 120 % band: the
 * "Conforme" and "Surveillance" bands of the calculation pages are merged.
 */
module PdfGenerateur {

  import opened Statut

  /** Rank of a report label, from 0 (CRITIQUE) to 3 (EXCELLENT); -1 for any other string. */
  function RangRapport(libelle: string): int {
    if libelle == "EXCELLENT" then 3
    else if libelle == "BON" then 2
    else if libelle == "SURVEILLANCE" then 1
    else if libelle == "CRITIQUE" then 0
    else -1
  }

  /** The report label standing for each status of the calculation pages. */
  function LibelleRapport(s: Statut): string {
    match s
    case TresSolide => "EXCELLENT"
    case Solide => "BON"
    case Conforme => "SURVEILLANCE"
    case Surveillance => "SURVEILLANCE"
    case NonConforme => "CRITIQUE"
  }

  /** `get_statut_ratio(ratio)`: the five-band status with its two middle bands merged. */
  function GetStatutRatio(ratio: real): (libelle: string)
    ensures libelle == LibelleRapport(Classer(ratio))
    ensures 0 <= RangRapport(libelle) <= 3
  {
    if ratio >= 180.0 then "EXCELLENT"
    else if ratio >= 150.0 then "BON"
    else if ratio >= 100.0 then "SURVEILLANCE"
    else "CRITIQUE"
  }

  /** The four bands, with inclusive lower bounds. */
  lemma GetStatutRatioBandes(ratio: real)
    ensures GetStatutRatio(ratio) == "EXCELLENT" <==> ratio >= 180.0
    ensures GetStatutRatio(ratio) == "BON" <==> 150.0 <= ratio < 180.0
    ensures GetStatutRatio(ratio) == "SURVEILLANCE" <==> 100.0 <= ratio < 150.0
    ensures GetStatutRatio(ratio) == "CRITIQUE" <==> ratio < 100.0
  {
  }

  /** A higher ratio never yields a worse report label. */
  lemma GetStatutRatioCroissant(ratio: real, ratio': real)
    requires ratio <= ratio'
    ensures RangRapport(GetStatutRatio(ratio)) <= RangRapport(GetStatutRatio(ratio'))
  {
  }

  /**
   * The two classifiers agree except in one place: a ratio of 120 % to 150 %
   * is "Conforme" on the calculation pages and "SURVEILLANCE" in the report,
   * like a ratio of 100 % to 120 %.
   */
  lemma ClassifieursCompares(ratio: real)
    ensures GetStatutRatio(ratio) == "SURVEILLANCE"
            <==> Classer(ratio) == Conforme || Classer(ratio) == Surveillance
    ensures GetStatutRatio(130.0) == GetStatutRatio(110.0)
    ensures DeterminerStatutSolvabilite(130.0) != DeterminerStatutSolvabilite(110.0)
  {
  }
}
