/**
 * The computing part of the two SCR calculation views of
 * solvabilite_app/views.py: `calcul_scr` (263-372) and `calcul_scr_avance`
 * (375-530). A request's POST data is given as the amounts it carries
 * (already parsed); a missing field reads as 0, as `POST.get(key, 0)` does.
 * What is modelled is the decision the view takes (reject, or the results it
 * displays); rendering, flash messages, saving and the access checks (see
 * the Permissions module) are not.
 */
module Vues {

  import opened Wrappers
  import opened ScrStandard
  import opened Mcr
  import opened Ratio
  import opened Statut

  /** The parsed amounts of a POST request, by field name. */
  type Post = map<string, real>

  /** `Decimal(request.POST.get(cle, 0))`. */
  function Lire(post: Post, cle: string): real {
    if cle in post then post[cle] else 0.0
  }

  /** An entry of `resultats['modules']`: a bare amount, or the amount with its share in percent. */
  datatype Module = Montant(valeur: real) | Detail(valeur: real, pourcentage: real)

  /** `sum(...)` of the module amounts. */
  function Total(modules: seq<Module>): real {
    if modules == [] then 0.0 else modules[0].valeur + Total(modules[1..])
  }

  /** The share of one module in the module total, in percent. */
  function Pourcentage(valeur: real, total: real): real
    requires total > 0.0
  {
    valeur / total * 100.0
  }

  /** Every entry rewritten as its amount with its share of `total`. */
  function AvecPourcentages(modules: seq<Module>, total: real): (r: seq<Module>)
    requires total > 0.0
    ensures |r| == |modules|
    ensures forall i :: 0 <= i < |r| ==> r[i].Detail? && r[i].valeur == modules[i].valeur
    ensures forall i :: 0 <= i < |r| ==> r[i].pourcentage * total == modules[i].valeur * 100.0
  {
    seq(|modules|, i requires 0 <= i < |modules| =>
      Detail(modules[i].valeur, Pourcentage(modules[i].valeur, total)))
  }

  /** The modules as displayed: with their shares when the total is positive, unchanged otherwise. */
  function ModulesAffiches(modules: seq<Module>): seq<Module> {
    var total := Total(modules);
    if total > 0.0 then AvecPourcentages(modules, total) else modules
  }

  /** Sum of the shares carried by the entries. */
  function SommePourcentages(modules: seq<Module>): real {
    if modules == [] then 0.0
    else (if modules[0].Detail? then modules[0].pourcentage else 0.0) + SommePourcentages(modules[1..])
  }

  /**
   * The percentage loop (views.py 349-355 and 505-512): when the module
   * total is positive, each entry is replaced in place by its amount and
   * share; otherwise the entries stay bare amounts.
   */
  method AjouterPourcentages(modules: array<Module>)
    modifies modules
    ensures modules[..] == ModulesAffiches(old(modules[..]))
  {
    var total := Total(modules[..]);
    if total > 0.0 {
      var i := 0;
      while i < modules.Length
        invariant 0 <= i <= modules.Length
        invariant modules[..i] == AvecPourcentages(old(modules[..]), total)[..i]
        invariant modules[i..] == old(modules[..])[i..]
      {
        modules[i] := Detail(modules[i].valeur, Pourcentage(modules[i].valeur, total));
        i := i + 1;
        assert modules[..i] == AvecPourcentages(old(modules[..]), total)[..i];
      }
      assert modules[..] == modules[..modules.Length];
    }
  }

  lemma QuotientSomme(a: real, b: real, t: real, qa: real, qb: real, qs: real)
    requires t > 0.0 && qa == a / t && qb == b / t && qs == (a + b) / t
    ensures qs == qa + qb
  {
  }

  lemma QuotientUnite(t: real, q: real)
    requires t > 0.0 && q == t / t
    ensures q == 1.0
  {
  }

  lemma {:induction false} SommeAvecPourcentages(modules: seq<Module>, total: real)
    requires total > 0.0
    ensures SommePourcentages(AvecPourcentages(modules, total)) == Total(modules) / total * 100.0
  {
    if modules != [] {
      assert AvecPourcentages(modules, total)[1..] == AvecPourcentages(modules[1..], total);
      SommeAvecPourcentages(modules[1..], total);
      var a, b := modules[0].valeur, Total(modules[1..]);
      QuotientSomme(a, b, total, a / total, b / total, Total(modules) / total);
    }
  }

  /** When the module total is positive, the displayed shares add up to 100 %. */
  lemma PourcentagesCentPourCent(modules: seq<Module>)
    requires Total(modules) > 0.0
    ensures SommePourcentages(ModulesAffiches(modules)) == 100.0
  {
    var total := Total(modules);
    SommeAvecPourcentages(modules, total);
    QuotientUnite(total, total / total);
  }

  /** Python's `all(valeurs)` over amounts: true exactly when none of them is zero. */
  function TousRenseignes(valeurs: seq<real>): (r: bool)
    ensures r <==> forall i :: 0 <= i < |valeurs| ==> valeurs[i] != 0.0
  {
    if valeurs == [] then true
    else valeurs[0] != 0.0 && TousRenseignes(valeurs[1..])
  }

  const MessageChampsObligatoires: string := "Tous les champs obligatoires doivent être remplis"

  const MessageDonneesDeBase: string :=
    "Les données de base (fonds propres et passif technique) sont obligatoires"

  /** The amounts `calcul_scr` reads from its POST data (views.py 288-298). */
  datatype SaisieStandard = SaisieStandard(
    fondsPropres: real, passifTechnique: real, primeAnnuelle: real,
    marche: real, credit: real, vie: real, nonVie: real)

  function LireSaisieStandard(post: Post): SaisieStandard {
    SaisieStandard(Lire(post, "fonds_propres"), Lire(post, "passif_technique"), Lire(post, "prime_annuelle"),
                   Lire(post, "capital_requis_marche"), Lire(post, "capital_requis_credit"),
                   Lire(post, "capital_requis_vie"), Lire(post, "capital_requis_non_vie"))
  }

  /** The seven amounts `calcul_scr` requires, in the order of its check (views.py 301-303). */
  function Obligatoires(s: SaisieStandard): (valeurs: seq<real>)
    ensures |valeurs| == 7
  {
    [s.fondsPropres, s.passifTechnique, s.primeAnnuelle, s.marche, s.credit, s.vie, s.nonVie]
  }

  /** The four module amounts, in the order of `resultats['modules']`. */
  function ModulesStandard(s: SaisieStandard): seq<Module> {
    [Montant(s.marche), Montant(s.credit), Montant(s.vie), Montant(s.nonVie)]
  }

  /** What both views derive from the SCR: the MCR, the ratio and its status with its colour. */
  datatype Indicateurs = Indicateurs(scr: real, mcr: real, ratio: real, statut: string, couleurStatut: string)

  /** views.py 321-327 and 453-459: MCR, ratio and status from an SCR and the balance-sheet amounts. */
  function Evaluer(fondsPropres: real, passifTechnique: real, primeAnnuelle: real, scr: real): Indicateurs {
    var ratio := RatioSolvabilite(fondsPropres, scr);
    var (statut, couleur) := DeterminerStatutSolvabilite(ratio);
    Indicateurs(scr, CalculerMcr(scr, primeAnnuelle, passifTechnique), ratio, statut, couleur)
  }

  /**
   * For a positive SCR the ratio is own funds over SCR in percent, the MCR
   * lies in its corridor, and the status is "Non Conforme" exactly when own
   * funds fall short of the SCR.
   */
  lemma EvaluerScrPositif(fondsPropres: real, passifTechnique: real, primeAnnuelle: real, scr: real)
    requires scr > 0.0
    ensures var e := Evaluer(fondsPropres, passifTechnique, primeAnnuelle, scr);
            e.ratio * scr == fondsPropres * 100.0
            && 0.25 * scr <= e.mcr <= 0.45 * scr
            && (e.statut == "Non Conforme" <==> fondsPropres < scr)
  {
    StatutDuRatio(fondsPropres, scr);
  }

  /** For an SCR that is not positive the ratio falls back to 0 and the status is "Non Conforme". */
  lemma EvaluerScrNonPositif(fondsPropres: real, passifTechnique: real, primeAnnuelle: real, scr: real)
    requires scr <= 0.0
    ensures var e := Evaluer(fondsPropres, passifTechnique, primeAnnuelle, scr);
            e.ratio == 0.0 && e.statut == "Non Conforme" && e.couleurStatut == "danger"
  {
  }

  datatype ResultatsStandard = ResultatsStandard(
    indicateurs: Indicateurs, fondsPropres: real, passifTechnique: real, primeAnnuelle: real,
    modules: seq<Module>)

  /**
   * `calcul_scr` on the amounts of a POST request: refused unless all seven
   * are non-zero; otherwise the SCR of the four modules (no operational
   * charge), the MCR, the ratio and its status, and the modules with their
   * shares. `racine` is the square root the SCR takes.
   */
  function CalculScr(s: SaisieStandard, racine: real): Result<ResultatsStandard>
    requires EstRacine(Radicande(s.marche, s.credit, s.vie, s.nonVie), racine)
  {
    if !TousRenseignes(Obligatoires(s)) then Err(MessageChampsObligatoires)
    else
      var scr := CalculerScrStandard(s.marche, s.credit, s.vie, s.nonVie, 0.0, racine);
      Ok(ResultatsStandard(Evaluer(s.fondsPropres, s.passifTechnique, s.primeAnnuelle, scr),
                           s.fondsPropres, s.passifTechnique, s.primeAnnuelle,
                           ModulesAffiches(ModulesStandard(s))))
  }

  /**
   * A zero amount in any of the seven fields refuses the calculation with
   * the same message, and only that does; a field missing from the request
   * reads as zero and so refuses it too.
   */
  lemma CalculScrRefus(post: Post, racine: real)
    requires var s := LireSaisieStandard(post); EstRacine(Radicande(s.marche, s.credit, s.vie, s.nonVie), racine)
    ensures var s := LireSaisieStandard(post);
            CalculScr(s, racine).Err? <==> exists i :: 0 <= i < 7 && Obligatoires(s)[i] == 0.0
    ensures var s := LireSaisieStandard(post);
            CalculScr(s, racine).Err? ==> CalculScr(s, racine).message == MessageChampsObligatoires
    ensures var s := LireSaisieStandard(post);
            "capital_requis_vie" !in post ==> CalculScr(s, racine).Err?
  {
    var s := LireSaisieStandard(post);
    assert "capital_requis_vie" !in post ==> Obligatoires(s)[5] == 0.0;
  }

  /**
   * An accepted standard calculation always has a positive SCR, because the
   * four modules are non-zero and the correlation matrix is positive
   * definite; so the ratio's zero branch never applies there. The MCR lies
   * in its corridor and the status is "Non Conforme" exactly when own funds
   * fall short of the SCR.
   */
  lemma CalculScrAccepte(s: SaisieStandard, racine: real)
    requires EstRacine(Radicande(s.marche, s.credit, s.vie, s.nonVie), racine)
    requires CalculScr(s, racine).Ok?
    ensures var e := CalculScr(s, racine).value.indicateurs;
            e.scr > 0.0
            && e.ratio * e.scr == s.fondsPropres * 100.0
            && 0.25 * e.scr <= e.mcr <= 0.45 * e.scr
            && (e.statut == "Non Conforme" <==> s.fondsPropres < e.scr)
  {
    var e := CalculScr(s, racine).value.indicateurs;
    assert e == Evaluer(s.fondsPropres, s.passifTechnique, s.primeAnnuelle, e.scr);
    assert Obligatoires(s)[3] != 0.0;
    ScrPositif(s.marche, s.credit, s.vie, s.nonVie, 0.0, racine);
    assert e.scr > 0.0;
    IndicateursScrPositif(e, s.fondsPropres, s.passifTechnique, s.primeAnnuelle);
  }

  lemma IndicateursScrPositif(e: Indicateurs, fondsPropres: real, passifTechnique: real, primeAnnuelle: real)
    requires e.scr > 0.0 && e == Evaluer(fondsPropres, passifTechnique, primeAnnuelle, e.scr)
    ensures e.ratio * e.scr == fondsPropres * 100.0
            && 0.25 * e.scr <= e.mcr <= 0.45 * e.scr
            && (e.statut == "Non Conforme" <==> fondsPropres < e.scr)
  {
    EvaluerScrPositif(fondsPropres, passifTechnique, primeAnnuelle, e.scr);
  }

  /** In an accepted calculation with a positive module total the shares add up to 100 %. */
  lemma CalculScrPourcentages(s: SaisieStandard, racine: real)
    requires EstRacine(Radicande(s.marche, s.credit, s.vie, s.nonVie), racine)
    requires CalculScr(s, racine).Ok?
    requires Total(ModulesStandard(s)) > 0.0
    ensures SommePourcentages(CalculScr(s, racine).value.modules) == 100.0
  {
    PourcentagesCentPourCent(ModulesStandard(s));
  }

  /** Three sub-risk amounts of one module. */
  datatype SousRisques = SousRisques(premier: real, deuxieme: real, troisieme: real)

  /** A module of the advanced view: the sum of its three sub-risks (views.py 443-446). */
  function Somme(r: SousRisques): real {
    r.premier + r.deuxieme + r.troisieme
  }

  /** The amounts `calcul_scr_avance` reads from its POST data (views.py 401-430). */
  datatype SaisieAvancee = SaisieAvancee(
    fondsPropres: real, passifTechnique: real, primeAnnuelle: real,
    placements: real, immobilisations: real, chargesSinistres: real,
    marche: SousRisques, credit: SousRisques, vie: SousRisques, nonVie: SousRisques,
    operationnel: real)

  function LireSaisieAvancee(post: Post): SaisieAvancee {
    SaisieAvancee(
      Lire(post, "fonds_propres"), Lire(post, "passif_technique"), Lire(post, "prime_annuelle"),
      Lire(post, "placements"), Lire(post, "immobilisations"), Lire(post, "charges_sinistres"),
      SousRisques(Lire(post, "risque_taux"), Lire(post, "risque_actions"), Lire(post, "risque_immobilier")),
      SousRisques(Lire(post, "risque_contrepartie"), Lire(post, "risque_spread"), Lire(post, "concentration")),
      SousRisques(Lire(post, "mortalite"), Lire(post, "longevite"), Lire(post, "rachat")),
      SousRisques(Lire(post, "risque_primes"), Lire(post, "risque_sinistres"), Lire(post, "catastrophes")),
      Lire(post, "scr_operational"))
  }

  /** The radicand of the advanced view's SCR. */
  function RadicandeAvancee(s: SaisieAvancee): real {
    Radicande(Somme(s.marche), Somme(s.credit), Somme(s.vie), Somme(s.nonVie))
  }

  datatype ResultatsAvances = ResultatsAvances(
    indicateurs: Indicateurs, saisie: SaisieAvancee, modules: seq<Module>, operationnel: real)

  /**
   * `calcul_scr_avance` on the amounts of a POST request: refused when own
   * funds or technical provisions are zero; otherwise the modules are
   * rebuilt from their sub-risks and the operational charge is added to the
   * correlated SCR. The operational charge is shown apart from the four
   * modules and gets no share.
   */
  function CalculScrAvance(s: SaisieAvancee, racine: real): Result<ResultatsAvances>
    requires EstRacine(RadicandeAvancee(s), racine)
  {
    if s.fondsPropres == 0.0 || s.passifTechnique == 0.0 then Err(MessageDonneesDeBase)
    else
      var scr := CalculerScrStandard(Somme(s.marche), Somme(s.credit), Somme(s.vie), Somme(s.nonVie),
                                     s.operationnel, racine);
      var modules := [Montant(Somme(s.marche)), Montant(Somme(s.credit)),
                      Montant(Somme(s.vie)), Montant(Somme(s.nonVie))];
      Ok(ResultatsAvances(Evaluer(s.fondsPropres, s.passifTechnique, s.primeAnnuelle, scr),
                          s, ModulesAffiches(modules), s.operationnel))
  }

  /** Only own funds and technical provisions are required; the premiums and sub-risks may be zero. */
  lemma CalculScrAvanceRefus(s: SaisieAvancee, racine: real)
    requires EstRacine(RadicandeAvancee(s), racine)
    ensures CalculScrAvance(s, racine).Err? <==> s.fondsPropres == 0.0 || s.passifTechnique == 0.0
    ensures CalculScrAvance(s, racine).Err? ==> CalculScrAvance(s, racine).message == MessageDonneesDeBase
  {
  }

  /** The indicators of an accepted advanced calculation are those of its SCR. */
  lemma IndicateursAvances(s: SaisieAvancee, racine: real)
    requires EstRacine(RadicandeAvancee(s), racine)
    requires CalculScrAvance(s, racine).Ok?
    ensures CalculScrAvance(s, racine).value.indicateurs
            == Evaluer(s.fondsPropres, s.passifTechnique, s.primeAnnuelle,
                       CalculerScrStandard(Somme(s.marche), Somme(s.credit), Somme(s.vie), Somme(s.nonVie),
                                           s.operationnel, racine))
  {
  }

  /** The displayed module amounts are the sums of their sub-risks, in the order market, credit, life, non-life. */
  lemma CalculScrAvanceModules(s: SaisieAvancee, racine: real)
    requires EstRacine(RadicandeAvancee(s), racine)
    requires CalculScrAvance(s, racine).Ok?
    ensures var ms := CalculScrAvance(s, racine).value.modules;
            |ms| == 4 && ms[0].valeur == Somme(s.marche) && ms[1].valeur == Somme(s.credit)
            && ms[2].valeur == Somme(s.vie) && ms[3].valeur == Somme(s.nonVie)
  {
  }

  /** With every sub-risk at zero the SCR is the operational charge alone. */
  lemma CalculScrAvanceSansRisques(s: SaisieAvancee, racine: real)
    requires EstRacine(RadicandeAvancee(s), racine)
    requires CalculScrAvance(s, racine).Ok?
    requires Somme(s.marche) == 0.0 && Somme(s.credit) == 0.0 && Somme(s.vie) == 0.0 && Somme(s.nonVie) == 0.0
    ensures CalculScrAvance(s, racine).value.indicateurs.scr == s.operationnel
  {
    IndicateursAvances(s, racine);
    ScrSansModules(Somme(s.marche), Somme(s.credit), Somme(s.vie), Somme(s.nonVie), s.operationnel, racine);
  }

  /**
   * An advanced SCR that is not positive (no sub-risk and no positive
   * operational charge, or negative inputs) makes the ratio fall back to 0
   * and the company "Non Conforme" whatever its own funds.
   */
  lemma CalculScrAvanceScrNonPositif(s: SaisieAvancee, racine: real)
    requires EstRacine(RadicandeAvancee(s), racine)
    requires CalculScrAvance(s, racine).Ok?
    requires CalculScrAvance(s, racine).value.indicateurs.scr <= 0.0
    ensures CalculScrAvance(s, racine).value.indicateurs.ratio == 0.0
    ensures CalculScrAvance(s, racine).value.indicateurs.statut == "Non Conforme"
  {
    var e := CalculScrAvance(s, racine).value.indicateurs;
    IndicateursAvances(s, racine);
    EvaluerScrNonPositif(s.fondsPropres, s.passifTechnique, s.primeAnnuelle, e.scr);
  }

  /**
   * With non-negative modules the advanced SCR never exceeds the plain sum
   * of the four modules and the operational charge.
   */
  lemma CalculScrAvanceMajore(s: SaisieAvancee, racine: real)
    requires EstRacine(RadicandeAvancee(s), racine)
    requires CalculScrAvance(s, racine).Ok?
    requires Somme(s.marche) >= 0.0 && Somme(s.credit) >= 0.0 && Somme(s.vie) >= 0.0 && Somme(s.nonVie) >= 0.0
    ensures CalculScrAvance(s, racine).value.indicateurs.scr
            <= Somme(s.marche) + Somme(s.credit) + Somme(s.vie) + Somme(s.nonVie) + s.operationnel
  {
    ScrMajoreParSomme(Somme(s.marche), Somme(s.credit), Somme(s.vie), Somme(s.nonVie), s.operationnel, racine);
  }
}
