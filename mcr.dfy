/**
 * The Minimum Capital Requirement corridor (`calculer_mcr`,
 * solvabilite_app/views.py 952-966): the larger of a premium-based and a
 * provision-based charge, capped at 45 % and floored at 25 % of the SCR, as
 * in article 129(3) of Directive 2009/138/EC. The Decimal conversions of the
 * code are exact over the reals and are not modelled.
 */
module Mcr {

  function Max(a: real, b: real): real {
    if a >= b then a else b
  }

  function Min(a: real, b: real): real {
    if a <= b then a else b
  }

  /** `mcr_calcule`: the larger of 25 % of the premiums and 15 % of the technical provisions. */
  function McrCalcule(primeAnnuelle: real, passifTechnique: real): (calcule: real)
    ensures calcule >= 0.25 * primeAnnuelle && calcule >= 0.15 * passifTechnique
    ensures calcule == 0.25 * primeAnnuelle || calcule == 0.15 * passifTechnique
  {
    Max(primeAnnuelle * 0.25, passifTechnique * 0.15)
  }

  /**
   * `calculer_mcr(scr, prime_annuelle, passif_technique)`: the computed
   * charge is first capped at 45 % of the SCR, then floored at 25 % of it.
   * The floor always holds; the cap holds whenever the SCR is not negative.
   */
  function CalculerMcr(scr: real, primeAnnuelle: real, passifTechnique: real): (mcr: real)
    ensures mcr >= 0.25 * scr
    ensures scr >= 0.0 ==> mcr <= 0.45 * scr
  {
    var mcrMin := scr * 0.25;
    var mcrMax := scr * 0.45;
    Max(mcrMin, Min(McrCalcule(primeAnnuelle, passifTechnique), mcrMax))
  }

  /** Inside the corridor the computed charge is kept as it is. */
  lemma McrDansLeCorridor(scr: real, prime: real, passif: real)
    requires 0.25 * scr <= McrCalcule(prime, passif) <= 0.45 * scr
    ensures CalculerMcr(scr, prime, passif) == McrCalcule(prime, passif)
  {
  }

  /** Below the corridor the floor applies, above it (for a non-negative SCR) the cap. */
  lemma McrHorsCorridor(scr: real, prime: real, passif: real)
    ensures McrCalcule(prime, passif) < 0.25 * scr ==> CalculerMcr(scr, prime, passif) == 0.25 * scr
    ensures scr >= 0.0 && McrCalcule(prime, passif) > 0.45 * scr
            ==> CalculerMcr(scr, prime, passif) == 0.45 * scr
  {
  }

  /** The result always is one of the three candidates: floor, cap or computed charge. */
  lemma McrValeurs(scr: real, prime: real, passif: real)
    ensures var mcr := CalculerMcr(scr, prime, passif);
            mcr == 0.25 * scr || mcr == 0.45 * scr || mcr == McrCalcule(prime, passif)
  {
  }

  /**
   * With a negative SCR the cap lies below the floor, and the floor wins
   * whatever the premiums and provisions.
   */
  lemma McrScrNegatif(scr: real, prime: real, passif: real)
    requires scr < 0.0
    ensures CalculerMcr(scr, prime, passif) == 0.25 * scr
  {
  }

  /** More premiums or more provisions never lower the requirement. */
  lemma McrCroissant(scr: real, prime: real, passif: real, prime': real, passif': real)
    requires prime <= prime' && passif <= passif'
    ensures CalculerMcr(scr, prime, passif) <= CalculerMcr(scr, prime', passif')
  {
  }

  /**
   * For a non-negative SCR, flooring first and capping second gives the same
   * result as the code's order (cap, then floor).
   */
  lemma McrOrdreIndifferent(scr: real, prime: real, passif: real)
    requires scr >= 0.0
    ensures CalculerMcr(scr, prime, passif)
            == Min(Max(McrCalcule(prime, passif), 0.25 * scr), 0.45 * scr)
  {
  }

  /** With a negative SCR the two orders differ: for SCR -100 the code yields -25, the other order -45. */
  lemma McrOrdreNegatif()
    ensures CalculerMcr(-100.0, 0.0, 0.0) == -25.0
    ensures Min(Max(McrCalcule(0.0, 0.0), 0.25 * -100.0), 0.45 * -100.0) == -45.0
  {
  }

  /**
   * Worked cases with an SCR of 100: premiums 120 and provisions 500 compute
   * 75, capped at 45; premiums 40 and provisions 100 compute 15, floored at
   * 25; premiums 120 and provisions 100 compute 30, which is kept.
   */
  lemma McrExemple()
    ensures McrCalcule(120.0, 500.0) == 75.0
    ensures CalculerMcr(100.0, 120.0, 500.0) == 45.0
    ensures CalculerMcr(100.0, 40.0, 100.0) == 25.0
    ensures CalculerMcr(100.0, 120.0, 100.0) == 30.0
  {
  }
}
