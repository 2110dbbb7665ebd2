/**
 * The record logic of solvabilite_app/models.py: the role label of a user,
 * the automatic module totals and the `details_risques` summary that
 * `DonneesSolvabilite.save` computes before persisting, the derived balance
 * sheet properties, and the stored ratio of a `CalculSCR`. Persistence
 * itself (`super().save`), foreign-key behaviour and dates are not modelled.
 */
module Modeles {

  import opened Wrappers
  import opened ScrStandard
  import Permissions
  import Ratio

  /** `Utilisateur.ROLE_CHOICES`: role codes with their display labels, in order. */
  const RoleChoices: seq<(string, string)> := [
    ("ACTUAIRE", "Actuaire"),
    ("RISK_MANAGER", "Risk Manager"),
    ("CONTROLEUR", "Contrôleur de Gestion"),
    ("DG", "Directeur Général"),
    ("CONSULTANT", "Consultant"),
    ("ADMIN", "Administrateur"),
    ("REGULATEUR", "Régulateur"),
    ("CLIENT", "Client"),
    ("RH", "Responsable RH")
  ]

  /** `dict(choices).get(code)`: the label of the last pair with that code, if any. */
  function Chercher(choices: seq<(string, string)>, code: string): (r: Option<string>)
    ensures r.None? <==> forall i :: 0 <= i < |choices| ==> choices[i].0 != code
    ensures r.Some? ==> exists i :: 0 <= i < |choices| && choices[i] == (code, r.value)
  {
    if choices == [] then None
    else
      var dernier := choices[|choices| - 1];
      if dernier.0 == code then Some(dernier.1) else Chercher(choices[..|choices| - 1], code)
  }

  /** A company row; only the name and SIREN the forms deal with. */
  datatype Compagnie = Compagnie(nom: string, siren: string)

  /** An application user: role code, telephone and the company it belongs to, if any. */
  class Utilisateur {
    var role: string
    var telephone: string
    var compagnie: Option<Compagnie>

    /** A new user gets the default role CLIENT, no telephone and no company. */
    constructor ()
      ensures role == "CLIENT" && telephone == "" && compagnie.None?
    {
      role := "CLIENT";
      telephone := "";
      compagnie := None;
    }

    /**
     * `get_role_display`: the label of a known role code, and the code
     * itself for any other value.
     */
    function GetRoleDisplay(): (libelle: string)
      reads this
      ensures (exists i :: 0 <= i < |RoleChoices| && RoleChoices[i] == (role, libelle))
              || ((forall i :: 0 <= i < |RoleChoices| ==> RoleChoices[i].0 != role) && libelle == role)
    {
      match Chercher(RoleChoices, role)
      case Some(l) => l
      case None => role
    }
  }

  /** The codes of `ROLE_CHOICES` are exactly the roles of the permission table, and pairwise distinct. */
  lemma CodesDeRoles()
    ensures forall i :: 0 <= i < |RoleChoices| ==> RoleChoices[i].0 in Permissions.RolesConnus
    ensures forall r :: r in Permissions.RolesConnus ==> exists i :: 0 <= i < |RoleChoices| && RoleChoices[i].0 == r
    ensures forall i, j :: 0 <= i < j < |RoleChoices| ==> RoleChoices[i].0 != RoleChoices[j].0
  {
    assert RoleChoices[0].0 == "ACTUAIRE" && RoleChoices[1].0 == "RISK_MANAGER" && RoleChoices[2].0 == "CONTROLEUR";
    assert RoleChoices[3].0 == "DG" && RoleChoices[4].0 == "CONSULTANT" && RoleChoices[5].0 == "ADMIN";
    assert RoleChoices[6].0 == "REGULATEUR" && RoleChoices[7].0 == "CLIENT" && RoleChoices[8].0 == "RH";
  }

  /** A known role code is displayed with its own label (CLIENT, the default role, as "Client"). */
  lemma RoleConnuAffiche(u: Utilisateur, i: nat)
    requires i < |RoleChoices| && u.role == RoleChoices[i].0
    ensures u.GetRoleDisplay() == RoleChoices[i].1
  {
    CodesDeRoles();
  }

  /** Any other value of the role field is displayed as is. */
  lemma RoleInconnuAffiche(u: Utilisateur)
    requires u.role !in Permissions.RolesConnus
    ensures u.GetRoleDisplay() == u.role
  {
    CodesDeRoles();
  }

  /** `True` for a Decimal amount, as Python's truth test: non-zero. */
  predicate Renseigne(montant: real) {
    montant != 0.0
  }

  /**
   * The total `save` gives a module: the sum of its three sub-risks when
   * one of them is non-zero, the module's current value otherwise.
   */
  function TotalAuto(a: real, b: real, c: real, courant: real): (total: real)
    ensures Renseigne(a) || Renseigne(b) || Renseigne(c) ==> total == a + b + c
    ensures !Renseigne(a) && !Renseigne(b) && !Renseigne(c) ==> total == courant
  {
    if Renseigne(a) || Renseigne(b) || Renseigne(c) then a + b + c else courant
  }

  /** Saving twice gives the same totals as saving once. */
  lemma TotalAutoIdempotent(a: real, b: real, c: real, courant: real)
    ensures TotalAuto(a, b, c, TotalAuto(a, b, c, courant)) == TotalAuto(a, b, c, courant)
  {
  }

  /** When all sub-risks are zero the module keeps the amount typed in directly, whatever it is. */
  lemma TotalAutoSaisieDirecte(courant: real)
    ensures TotalAuto(0.0, 0.0, 0.0, courant) == courant
  {
  }

  /** A named sub-risk amount of `details_risques`. */
  datatype SousRisque = SousRisque(nom: string, montant: real)

  /** One module entry of `details_risques`: its three sub-risks and its total. */
  datatype DetailModule = DetailModule(sousRisques: seq<SousRisque>, total: real)

  /** The sum of the amounts of a list of sub-risks. */
  function SommeSousRisques(sousRisques: seq<SousRisque>): real {
    if sousRisques == [] then 0.0 else sousRisques[0].montant + SommeSousRisques(sousRisques[1..])
  }

  lemma SommeDeTrois(sousRisques: seq<SousRisque>)
    requires |sousRisques| == 3
    ensures SommeSousRisques(sousRisques) == sousRisques[0].montant + sousRisques[1].montant + sousRisques[2].montant
  {
    var reste := sousRisques[1..];
    assert reste[1..][1..] == [];
    assert SommeSousRisques(reste[1..]) == reste[1].montant;
  }

  /** The JSON object `save` stores in `details_risques`, one entry per module. */
  datatype DetailsRisques = DetailsRisques(marche: DetailModule, credit: DetailModule, vie: DetailModule,
                                           nonVie: DetailModule)

  /** A balance-sheet record with its risk modules and sub-risks. */
  class DonneesSolvabilite {
    var fondsPropres: real
    var passifTechnique: real
    var primeAnnuelle: real
    var placements: real
    var immobilisations: real
    var chargesSinistres: real
    var scrMarche: real
    var scrCredit: real
    var scrVie: real
    var scrNonVie: real
    var scrOperational: real
    var risqueTaux: real
    var risqueActions: real
    var risqueImmobilier: real
    var risqueContrepartie: real
    var risqueSpread: real
    var concentration: real
    var mortalite: real
    var longevite: real
    var rachat: real
    var risquePrimes: real
    var risqueSinistres: real
    var catastrophes: real
    var mcr: real
    var ratioSolvabilite: real
    var detailsRisques: Option<DetailsRisques>

    /** A new record: every amount at its default 0 and no details yet. */
    constructor ()
      ensures fondsPropres == 0.0 && passifTechnique == 0.0 && primeAnnuelle == 0.0
      ensures placements == 0.0 && immobilisations == 0.0 && chargesSinistres == 0.0
      ensures scrMarche == 0.0 && scrCredit == 0.0 && scrVie == 0.0 && scrNonVie == 0.0 && scrOperational == 0.0
      ensures risqueTaux == 0.0 && risqueActions == 0.0 && risqueImmobilier == 0.0
      ensures risqueContrepartie == 0.0 && risqueSpread == 0.0 && concentration == 0.0
      ensures mortalite == 0.0 && longevite == 0.0 && rachat == 0.0
      ensures risquePrimes == 0.0 && risqueSinistres == 0.0 && catastrophes == 0.0
      ensures mcr == 0.0 && ratioSolvabilite == 0.0 && detailsRisques.None?
    {
      fondsPropres, passifTechnique, primeAnnuelle := 0.0, 0.0, 0.0;
      placements, immobilisations, chargesSinistres := 0.0, 0.0, 0.0;
      scrMarche, scrCredit, scrVie, scrNonVie, scrOperational := 0.0, 0.0, 0.0, 0.0, 0.0;
      risqueTaux, risqueActions, risqueImmobilier := 0.0, 0.0, 0.0;
      risqueContrepartie, risqueSpread, concentration := 0.0, 0.0, 0.0;
      mortalite, longevite, rachat := 0.0, 0.0, 0.0;
      risquePrimes, risqueSinistres, catastrophes := 0.0, 0.0, 0.0;
      mcr, ratioSolvabilite := 0.0, 0.0;
      detailsRisques := None;
    }

    /**
     * The stored details agree with the record: each module entry lists the
     * module's three sub-risks under their names, in order, and its total
     * is the module field.
     */
    predicate DetailsCoherents()
      reads this
    {
      && detailsRisques.Some?
      && detailsRisques.value.marche == DetailModule(
           [SousRisque("taux", risqueTaux), SousRisque("actions", risqueActions),
            SousRisque("immobilier", risqueImmobilier)], scrMarche)
      && detailsRisques.value.credit == DetailModule(
           [SousRisque("contrepartie", risqueContrepartie), SousRisque("spread", risqueSpread),
            SousRisque("concentration", concentration)], scrCredit)
      && detailsRisques.value.vie == DetailModule(
           [SousRisque("mortalite", mortalite), SousRisque("longevite", longevite),
            SousRisque("rachat", rachat)], scrVie)
      && detailsRisques.value.nonVie == DetailModule(
           [SousRisque("primes", risquePrimes), SousRisque("sinistres", risqueSinistres),
            SousRisque("catastrophes", catastrophes)], scrNonVie)
    }

    /**
     * `save` before persisting: each module whose sub-risks are filled in
     * becomes their sum, the others keep their value, and the details are
     * rebuilt from the updated fields. Nothing else changes.
     */
    method Save()
      modifies this`scrMarche, this`scrCredit, this`scrVie, this`scrNonVie, this`detailsRisques
      ensures scrMarche == TotalAuto(risqueTaux, risqueActions, risqueImmobilier, old(scrMarche))
      ensures scrCredit == TotalAuto(risqueContrepartie, risqueSpread, concentration, old(scrCredit))
      ensures scrVie == TotalAuto(mortalite, longevite, rachat, old(scrVie))
      ensures scrNonVie == TotalAuto(risquePrimes, risqueSinistres, catastrophes, old(scrNonVie))
      ensures DetailsCoherents()
      ensures Renseigne(risqueTaux) || Renseigne(risqueActions) || Renseigne(risqueImmobilier) ==>
                detailsRisques.value.marche.total == SommeSousRisques(detailsRisques.value.marche.sousRisques)
      ensures Renseigne(risqueContrepartie) || Renseigne(risqueSpread) || Renseigne(concentration) ==>
                detailsRisques.value.credit.total == SommeSousRisques(detailsRisques.value.credit.sousRisques)
      ensures Renseigne(mortalite) || Renseigne(longevite) || Renseigne(rachat) ==>
                detailsRisques.value.vie.total == SommeSousRisques(detailsRisques.value.vie.sousRisques)
      ensures Renseigne(risquePrimes) || Renseigne(risqueSinistres) || Renseigne(catastrophes) ==>
                detailsRisques.value.nonVie.total == SommeSousRisques(detailsRisques.value.nonVie.sousRisques)
    {
      TotaliserMarche();
      TotaliserCredit();
      TotaliserVie();
      TotaliserNonVie();
      detailsRisques := Some(DetailsRisques(
        DetailModule([SousRisque("taux", risqueTaux), SousRisque("actions", risqueActions),
                      SousRisque("immobilier", risqueImmobilier)], scrMarche),
        DetailModule([SousRisque("contrepartie", risqueContrepartie), SousRisque("spread", risqueSpread),
                      SousRisque("concentration", concentration)], scrCredit),
        DetailModule([SousRisque("mortalite", mortalite), SousRisque("longevite", longevite),
                      SousRisque("rachat", rachat)], scrVie),
        DetailModule([SousRisque("primes", risquePrimes), SousRisque("sinistres", risqueSinistres),
                      SousRisque("catastrophes", catastrophes)], scrNonVie)));
      SommeDeTrois(detailsRisques.value.marche.sousRisques);
      SommeDeTrois(detailsRisques.value.credit.sousRisques);
      SommeDeTrois(detailsRisques.value.vie.sousRisques);
      SommeDeTrois(detailsRisques.value.nonVie.sousRisques);
    }

    /** models.py 133-134: the market module from its sub-risks. */
    method TotaliserMarche()
      modifies this`scrMarche
      ensures scrMarche == TotalAuto(risqueTaux, risqueActions, risqueImmobilier, old(scrMarche))
    {
      if Renseigne(risqueTaux) || Renseigne(risqueActions) || Renseigne(risqueImmobilier) {
        scrMarche := risqueTaux + risqueActions + risqueImmobilier;
      }
    }

    /** models.py 136-137: the credit module from its sub-risks. */
    method TotaliserCredit()
      modifies this`scrCredit
      ensures scrCredit == TotalAuto(risqueContrepartie, risqueSpread, concentration, old(scrCredit))
    {
      if Renseigne(risqueContrepartie) || Renseigne(risqueSpread) || Renseigne(concentration) {
        scrCredit := risqueContrepartie + risqueSpread + concentration;
      }
    }

    /** models.py 139-140: the life module from its sub-risks. */
    method TotaliserVie()
      modifies this`scrVie
      ensures scrVie == TotalAuto(mortalite, longevite, rachat, old(scrVie))
    {
      if Renseigne(mortalite) || Renseigne(longevite) || Renseigne(rachat) {
        scrVie := mortalite + longevite + rachat;
      }
    }

    /** models.py 142-143: the non-life module from its sub-risks. */
    method TotaliserNonVie()
      modifies this`scrNonVie
      ensures scrNonVie == TotalAuto(risquePrimes, risqueSinistres, catastrophes, old(scrNonVie))
    {
      if Renseigne(risquePrimes) || Renseigne(risqueSinistres) || Renseigne(catastrophes) {
        scrNonVie := risquePrimes + risqueSinistres + catastrophes;
      }
    }

    /** `total_scr`: the plain sum of the five module fields, with no correlation. */
    function TotalScr(): real
      reads this
    {
      scrMarche + scrCredit + scrVie + scrNonVie + scrOperational
    }

    /** `total_actif`. */
    function TotalActif(): real
      reads this
    {
      placements + immobilisations
    }

    /** `total_passif`. */
    function TotalPassif(): real
      reads this
    {
      fondsPropres + passifTechnique
    }

    /**
     * `equilibre_bilan`: assets minus liabilities; zero exactly when the
     * balance sheet balances, positive when assets exceed own funds and
     * technical provisions.
     */
    function EquilibreBilan(): (ecart: real)
      reads this
      ensures ecart == (placements + immobilisations) - (fondsPropres + passifTechnique)
      ensures ecart == 0.0 <==> placements + immobilisations == fondsPropres + passifTechnique
      ensures ecart > 0.0 <==> placements + immobilisations > fondsPropres + passifTechnique
    {
      TotalActif() - TotalPassif()
    }
  }

  /**
   * For non-negative module fields the stored linear total is an upper
   * bound of the correlated SCR the calculation view computes from the
   * same modules: the correlations only bring diversification. The two
   * agree exactly when at most one module field is non-zero.
   */
  lemma TotalScrMajoreScrCorrele(d: DonneesSolvabilite, racine: real)
    requires d.scrMarche >= 0.0 && d.scrCredit >= 0.0 && d.scrVie >= 0.0 && d.scrNonVie >= 0.0
    requires EstRacine(Radicande(d.scrMarche, d.scrCredit, d.scrVie, d.scrNonVie), racine)
    ensures CalculerScrStandard(d.scrMarche, d.scrCredit, d.scrVie, d.scrNonVie, d.scrOperational, racine)
            <= d.TotalScr()
    ensures CalculerScrStandard(d.scrMarche, d.scrCredit, d.scrVie, d.scrNonVie, d.scrOperational, racine)
            == d.TotalScr()
            <==> NombreNonNuls(d.scrMarche, d.scrCredit, d.scrVie, d.scrNonVie) <= 1
  {
    ScrMajoreParSomme(d.scrMarche, d.scrCredit, d.scrVie, d.scrNonVie, d.scrOperational, racine);
    if NombreNonNuls(d.scrMarche, d.scrCredit, d.scrVie, d.scrNonVie) <= 1 {
      ScrModuleUnique(d.scrMarche, d.scrCredit, d.scrVie, d.scrNonVie, d.scrOperational, racine);
    } else {
      ScrDiversifie(d.scrMarche, d.scrCredit, d.scrVie, d.scrNonVie, d.scrOperational, racine);
    }
  }

  /** A stored SCR calculation on a balance-sheet record. */
  class CalculScr {
    var donnees: DonneesSolvabilite
    var methodeCalcul: string
    var resultatScr: real

    constructor (donnees: DonneesSolvabilite, methodeCalcul: string, resultatScr: real)
      ensures this.donnees == donnees && this.methodeCalcul == methodeCalcul && this.resultatScr == resultatScr
    {
      this.donnees := donnees;
      this.methodeCalcul := methodeCalcul;
      this.resultatScr := resultatScr;
    }

    /**
     * `ratio_solvabilite`: own funds of the record over the stored SCR, in
     * percent, for a positive SCR; 0 for a zero or negative one.
     */
    function RatioSolvabilite(): (ratio: real)
      reads this, donnees
      ensures resultatScr <= 0.0 ==> ratio == 0.0
      ensures resultatScr > 0.0 ==> ratio * resultatScr == donnees.fondsPropres * 100.0
    {
      if resultatScr != 0.0 && resultatScr > 0.0 then donnees.fondsPropres / resultatScr * 100.0 else 0.0
    }
  }

  /** The stored ratio and the ratio the calculation views display are the same function. */
  lemma RatioStockeCommeAffiche(calcul: CalculScr)
    ensures calcul.RatioSolvabilite() == Ratio.RatioSolvabilite(calcul.donnees.fondsPropres, calcul.resultatScr)
  {
  }
}
