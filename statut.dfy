/**
 * The five-band solvency status of the calculation views
 * (`determiner_statut_solvabilite`, solvabilite_app/views.py 969-980) and its
 * copy inside the PDF export (solvabilite_app/views.py 732-746), which pairs
 * the same labels with hexadecimal colours instead of Bootstrap classes.
 */
module Statut {

  datatype Statut = TresSolide | Solide | Conforme | Surveillance | NonConforme

  /** The label shown to the user. */
  function Libelle(s: Statut): string {
    match s
    case TresSolide => "Très Solide"
    case Solide => "Solide"
    case Conforme => "Conforme"
    case Surveillance => "Surveillance"
    case NonConforme => "Non Conforme"
  }

  /** The Bootstrap colour class of the calculation pages. */
  function Couleur(s: Statut): string {
    match s
    case TresSolide => "success"
    case Solide => "info"
    case Conforme => "primary"
    case Surveillance => "warning"
    case NonConforme => "danger"
  }

  /** The colour of the PDF report. */
  function CouleurPdf(s: Statut): string {
    match s
    case TresSolide => "#27ae60"
    case Solide => "#2ecc71"
    case Conforme => "#3498db"
    case Surveillance => "#f39c12"
    case NonConforme => "#e74c3c"
  }

  /** Rank of a status, from 0 (Non Conforme) up to 4 (Très Solide). */
  function Rang(s: Statut): nat {
    match s
    case NonConforme => 0
    case Surveillance => 1
    case Conforme => 2
    case Solide => 3
    case TresSolide => 4
  }

  /** The status of a given rank. */
  function StatutDeRang(k: nat): (s: Statut)
    requires k <= 4
    ensures Rang(s) == k
  {
    if k == 0 then NonConforme
    else if k == 1 then Surveillance
    else if k == 2 then Conforme
    else if k == 3 then Solide
    else TresSolide
  }

  /** The lower bounds of the four upper bands, in percent, in increasing order. */
  const Seuils: seq<real> := [100.0, 120.0, 150.0, 180.0]

  /** Number of thresholds the ratio reaches (bounds are inclusive). */
  function Atteints(ratio: real): (k: nat)
    ensures k <= |Seuils|
  {
    (if Seuils[0] <= ratio then 1 else 0) + (if Seuils[1] <= ratio then 1 else 0)
    + (if Seuils[2] <= ratio then 1 else 0) + (if Seuils[3] <= ratio then 1 else 0)
  }

  /**
   * The status a ratio deserves: the one whose rank is the number of
   * thresholds it reaches. This is the reference the classifiers are checked
   * against.
   */
  function Classer(ratio: real): Statut {
    StatutDeRang(Atteints(ratio))
  }

  /** `determiner_statut_solvabilite(ratio)`: the label and Bootstrap class of the ratio's band. */
  function DeterminerStatutSolvabilite(ratio: real): (r: (string, string))
    ensures r == (Libelle(Classer(ratio)), Couleur(Classer(ratio)))
  {
    if ratio >= 180.0 then ("Très Solide", "success")
    else if ratio >= 150.0 then ("Solide", "info")
    else if ratio >= 120.0 then ("Conforme", "primary")
    else if ratio >= 100.0 then ("Surveillance", "warning")
    else ("Non Conforme", "danger")
  }

  /** The status block of the PDF export: the same label, with the report's colour. */
  function StatutRapportPdf(ratio: real): (r: (string, string))
    ensures r == (Libelle(Classer(ratio)), CouleurPdf(Classer(ratio)))
  {
    if ratio >= 180.0 then ("Très Solide", "#27ae60")
    else if ratio >= 150.0 then ("Solide", "#2ecc71")
    else if ratio >= 120.0 then ("Conforme", "#3498db")
    else if ratio >= 100.0 then ("Surveillance", "#f39c12")
    else ("Non Conforme", "#e74c3c")
  }

  /** The export and the calculation pages never disagree on the label. */
  lemma PdfMemeLibelle(ratio: real)
    ensures StatutRapportPdf(ratio).0 == DeterminerStatutSolvabilite(ratio).0
  {
  }

  /** Distinct statuses have distinct labels, so a label determines its status. */
  lemma LibelleInjectif(s: Statut, t: Statut)
    requires Libelle(s) == Libelle(t)
    ensures s == t
  {
  }

  /** Every band, with inclusive lower bounds. */
  lemma ClasserBandes(ratio: real)
    ensures Classer(ratio) == TresSolide <==> ratio >= 180.0
    ensures Classer(ratio) == Solide <==> 150.0 <= ratio < 180.0
    ensures Classer(ratio) == Conforme <==> 120.0 <= ratio < 150.0
    ensures Classer(ratio) == Surveillance <==> 100.0 <= ratio < 120.0
    ensures Classer(ratio) == NonConforme <==> ratio < 100.0
  {
  }

  /** A higher ratio never yields a worse status. */
  lemma ClasserCroissant(ratio: real, ratio': real)
    requires ratio <= ratio'
    ensures Rang(Classer(ratio)) <= Rang(Classer(ratio'))
  {
  }

  /** A ratio of at least 100 % is exactly what keeps a company out of "Non Conforme". */
  lemma ConformeSiCentPourCent(ratio: real)
    ensures DeterminerStatutSolvabilite(ratio).0 != "Non Conforme" <==> ratio >= 100.0
  {
  }

  /** Boundary cases: 150 is Solide, just below it is Conforme; 100 is Surveillance. */
  lemma StatutExemples()
    ensures DeterminerStatutSolvabilite(150.0) == ("Solide", "info")
    ensures DeterminerStatutSolvabilite(149.99) == ("Conforme", "primary")
    ensures DeterminerStatutSolvabilite(100.0) == ("Surveillance", "warning")
    ensures DeterminerStatutSolvabilite(99.99) == ("Non Conforme", "danger")
    ensures DeterminerStatutSolvabilite(0.0) == ("Non Conforme", "danger")
  {
  }
}
