/**
 * The validation logic of solvabilite_app/forms.py: the cross-field `clean`
 * of the two SCR calculation forms, the company to SIREN mapping and the
 * company assignment of the registration form. Field parsing, widgets and
 * the database queries behind the company lookup are not modelled; the
 * companies already stored are a parameter.
 */
module Formulaires {

  import opened Wrappers
  import opened Modeles

  /** A cleaned form value: a decimal amount or a date (days since some origin). */
  datatype Valeur = Montant(montant: real) | Date(jour: int)

  /** Python's truth test on a cleaned value: a zero amount is false, a date is true. */
  predicate Vrai(v: Valeur) {
    match v
    case Montant(m) => m != 0.0
    case Date(_) => true
  }

  /** `not cleaned_data.get(champ)`: the field is absent (missing or invalid) or false. */
  predicate Manquant(donnees: map<string, Valeur>, champ: string) {
    champ !in donnees || !Vrai(donnees[champ])
  }

  /** The fields of `champs` a `clean` flags on the given cleaned data. */
  function Signales(donnees: map<string, Valeur>, champs: seq<string>): (s: set<string>)
    ensures forall f :: f in s <==> f in champs && Manquant(donnees, f)
  {
    set f | f in champs && Manquant(donnees, f)
  }

  /** The messages already recorded for a field. */
  function Messages(erreurs: map<string, seq<string>>, champ: string): seq<string> {
    if champ in erreurs then erreurs[champ] else []
  }

  /** The state of a bound Django form that `clean` works on. */
  class Formulaire {
    var cleanedData: map<string, Valeur>
    var errors: map<string, seq<string>>

    constructor (cleanedData: map<string, Valeur>)
      ensures this.cleanedData == cleanedData && errors == map[]
    {
      this.cleanedData := cleanedData;
      errors := map[];
    }

    /**
     * Django's `add_error(champ, message)`: the message is appended to the
     * field's errors and the field leaves the cleaned data.
     */
    method AddError(champ: string, message: string)
      modifies this
      ensures errors == old(errors)[champ := Messages(old(errors), champ) + [message]]
      ensures cleanedData == old(cleanedData) - {champ}
    {
      errors := errors[champ := Messages(errors, champ) + [message]];
      cleanedData := cleanedData - {champ};
    }
  }

  /** The required fields of `CalculSCRForm.clean`, in order. */
  const ChampsObligatoires: seq<string> := [
    "fonds_propres", "passif_technique", "prime_annuelle",
    "capital_requis_marche", "capital_requis_credit",
    "capital_requis_vie", "capital_requis_non_vie"
  ]

  const MessageObligatoire: string := "Ce champ est obligatoire"

  /** No field occurs twice in the list. */
  predicate Distincts(champs: seq<string>) {
    forall i, j :: 0 <= i < j < |champs| ==> champs[i] != champs[j]
  }

  /**
   * The loop of `CalculSCRForm.clean` over a list of distinct fields: each
   * one that is missing or false gets `message` and leaves the cleaned
   * data; nothing else changes.
   */
  method SignalerManquants(form: Formulaire, champs: seq<string>, message: string)
    requires Distincts(champs)
    modifies form
    ensures var signales := Signales(old(form.cleanedData), champs);
            && form.cleanedData == old(form.cleanedData) - signales
            && form.errors.Keys == old(form.errors).Keys + signales
            && (forall f :: f in form.errors ==>
                  form.errors[f] == if f in signales then Messages(old(form.errors), f) + [message]
                                    else old(form.errors)[f])
  {
    ghost var initiales, erreurs := form.cleanedData, form.errors;
    for i := 0 to |champs|
      invariant form.cleanedData == initiales - Signales(initiales, champs[..i])
      invariant form.errors.Keys == erreurs.Keys + Signales(initiales, champs[..i])
      invariant forall f :: f in form.errors ==>
                  form.errors[f] == if f in Signales(initiales, champs[..i]) then Messages(erreurs, f) + [message]
                                    else erreurs[f]
    {
      var champ := champs[i];
      ghost var avant := Signales(initiales, champs[..i]);
      assert champ !in avant by {
        assert champ !in champs[..i];
      }
      SignalesPas(initiales, champs, i);
      if Manquant(form.cleanedData, champ) {
        assert Manquant(initiales, champ);
        form.AddError(champ, message);
        assert Signales(initiales, champs[..i + 1]) == avant + {champ};
      } else {
        assert !Manquant(initiales, champ);
        assert Signales(initiales, champs[..i + 1]) == avant;
      }
    }
    assert champs[..|champs|] == champs;
  }

  /** One more field of the list adds itself to the flagged set exactly when it is missing. */
  lemma SignalesPas(donnees: map<string, Valeur>, champs: seq<string>, i: nat)
    requires i < |champs|
    ensures Signales(donnees, champs[..i + 1])
            == Signales(donnees, champs[..i]) + (if Manquant(donnees, champs[i]) then {champs[i]} else {})
  {
    assert champs[..i + 1] == champs[..i] + [champs[i]];
  }

  lemma ObligatoiresDistincts()
    ensures Distincts(ChampsObligatoires)
  {
  }

  /**
   * `CalculSCRForm.clean`: every required field that is missing or zero
   * gets the message "Ce champ est obligatoire" and leaves the cleaned
   * data; no other field is touched. The cleaned data (after those
   * removals) is returned.
   */
  method CleanCalculScr(form: Formulaire) returns (donnees: map<string, Valeur>)
    modifies form
    ensures var signales := Signales(old(form.cleanedData), ChampsObligatoires);
            && form.cleanedData == old(form.cleanedData) - signales
            && form.errors.Keys == old(form.errors).Keys + signales
            && (forall f :: f in form.errors ==>
                  form.errors[f] == if f in signales then Messages(old(form.errors), f) + [MessageObligatoire]
                                    else old(form.errors)[f])
            && donnees == form.cleanedData
  {
    ObligatoiresDistincts();
    SignalerManquants(form, ChampsObligatoires, MessageObligatoire);
    donnees := form.cleanedData;
  }

  /**
   * Exactly the required fields that are missing or zero are flagged; a
   * zero amount counts as missing; the reference date is never flagged.
   */
  lemma SignalementsCalculScr(donnees: map<string, Valeur>, champ: string)
    ensures champ in Signales(donnees, ChampsObligatoires)
            <==> champ in ChampsObligatoires && (champ !in donnees || !Vrai(donnees[champ]))
    ensures champ in ChampsObligatoires && champ in donnees && donnees[champ] == Montant(0.0)
            ==> champ in Signales(donnees, ChampsObligatoires)
    ensures "date_reference" !in Signales(donnees, ChampsObligatoires)
  {
  }

  const MessageFondsPropres: string := "Les fonds propres sont obligatoires"

  const MessagePassifTechnique: string := "Le passif technique est obligatoire"

  /**
   * `CalculSCRAvanceForm.clean`: own funds and technical provisions, when
   * missing or zero, each get their own message and leave the cleaned
   * data; every other field, all sub-risks and the premium included, is
   * left alone.
   */
  method CleanCalculScrAvance(form: Formulaire) returns (donnees: map<string, Valeur>)
    modifies form
    ensures var signales := Signales(old(form.cleanedData), ["fonds_propres", "passif_technique"]);
            && form.cleanedData == old(form.cleanedData) - signales
            && form.errors.Keys == old(form.errors).Keys + signales
            && ("fonds_propres" in signales ==>
                  form.errors["fonds_propres"] == Messages(old(form.errors), "fonds_propres") + [MessageFondsPropres])
            && ("passif_technique" in signales ==>
                  form.errors["passif_technique"]
                    == Messages(old(form.errors), "passif_technique") + [MessagePassifTechnique])
            && (forall f :: f in form.errors && f !in signales ==> form.errors[f] == old(form.errors)[f])
            && donnees == form.cleanedData
  {
    ghost var initiales := form.cleanedData;
    assert "fonds_propres" != "passif_technique";
    if Manquant(form.cleanedData, "fonds_propres") {
      form.AddError("fonds_propres", MessageFondsPropres);
    }
    assert Manquant(form.cleanedData, "passif_technique") == Manquant(initiales, "passif_technique");
    if Manquant(form.cleanedData, "passif_technique") {
      form.AddError("passif_technique", MessagePassifTechnique);
    }
    donnees := form.cleanedData;
  }

  /** The advanced form flags at most own funds and technical provisions. */
  lemma SignalementsCalculScrAvance(donnees: map<string, Valeur>, champ: string)
    ensures champ in Signales(donnees, ["fonds_propres", "passif_technique"])
            ==> champ == "fonds_propres" || champ == "passif_technique"
  {
  }

  /** `siren_mapping` of `InscriptionForm.save`. */
  const SirenMapping: map<string, string> := map[
    "AXA" := "552120222",
    "ALLIANZ" := "552120223",
    "GROUPAMA" := "552120224",
    "GENERALI" := "552120225",
    "CNP_ASSURANCES" := "552120226",
    "MACIF" := "552120227",
    "MAIF" := "552120228",
    "MMA" := "552120229",
    "ACER" := "552120230"
  ]

  const SirenInconnu: string := "000000000"

  /** `siren_mapping.get(nom, '000000000')`. */
  function Siren(nom: string): (siren: string)
    ensures nom in SirenMapping ==> siren == SirenMapping[nom]
    ensures nom !in SirenMapping ==> siren == SirenInconnu
  {
    if nom in SirenMapping then SirenMapping[nom] else SirenInconnu
  }

  /** Every SIREN is nine digits; two listed companies never share one, and none is the fallback. */
  lemma SirenDistincts(a: string, b: string)
    ensures |Siren(a)| == 9 && forall i :: 0 <= i < 9 ==> '0' <= Siren(a)[i] <= '9'
    ensures a in SirenMapping && b in SirenMapping && a != b ==> Siren(a) != Siren(b)
    ensures a in SirenMapping ==> Siren(a) != SirenInconnu
  {
  }

  /**
   * The company the database lookup yields (`Compagnie.objects.get` by
   * SIREN, then by name, otherwise a new one): the first stored company
   * with that SIREN, else the first with that name, else a new company with
   * both.
   */
  function TrouverCompagnie(base: seq<Compagnie>, nom: string, siren: string): (c: Compagnie)
    ensures c.siren == siren || c.nom == nom
    ensures c in base || c == Compagnie(nom, siren)
    ensures (exists b :: b in base && b.siren == siren) ==> c in base && c.siren == siren
    ensures (forall b :: b in base ==> b.siren != siren) && (exists b :: b in base && b.nom == nom)
            ==> c in base && c.nom == nom
    ensures (forall b :: b in base ==> b.siren != siren && b.nom != nom) ==> c == Compagnie(nom, siren)
  {
    var parSiren := Premiere(base, ParSiren, siren);
    if parSiren.Some? then parSiren.value
    else
      var parNom := Premiere(base, ParNom, nom);
      if parNom.Some? then parNom.value else Compagnie(nom, siren)
  }

  /** The field a lookup matches on: `get(siren=...)` or `get(nom=...)`. */
  datatype Critere = ParSiren | ParNom

  function Cle(c: Compagnie, critere: Critere): string {
    match critere
    case ParSiren => c.siren
    case ParNom => c.nom
  }

  /** The first stored company whose field matches, if any. */
  function Premiere(base: seq<Compagnie>, critere: Critere, cle: string): (r: Option<Compagnie>)
    ensures r.Some? ==> r.value in base && Cle(r.value, critere) == cle
    ensures r.None? ==> forall c :: c in base ==> Cle(c, critere) != cle
  {
    if base == [] then None
    else if Cle(base[0], critere) == cle then Some(base[0])
    else Premiere(base[1..], critere, cle)
  }

  /**
   * The user part of `InscriptionForm.save`: the role is copied, and a
   * company is assigned only when the choice is neither empty nor 'AUTRE'.
   */
  method EnregistrerInscription(user: Utilisateur, role: string, compagnieNom: string, base: seq<Compagnie>)
    modifies user`role, user`compagnie
    ensures user.role == role
    ensures compagnieNom == "" || compagnieNom == "AUTRE" ==> user.compagnie == old(user.compagnie)
    ensures compagnieNom != "" && compagnieNom != "AUTRE" ==>
              user.compagnie == Some(TrouverCompagnie(base, compagnieNom, Siren(compagnieNom)))
  {
    user.role := role;
    if compagnieNom != "" && compagnieNom != "AUTRE" {
      var siren := Siren(compagnieNom);
      user.compagnie := Some(TrouverCompagnie(base, compagnieNom, siren));
    }
  }

  /**
   * A listed company with nothing stored yet is created under its fixed
   * SIREN; an unlisted one is created with the fallback SIREN.
   */
  lemma CompagnieCreee(nom: string)
    ensures TrouverCompagnie([], nom, Siren(nom)) == Compagnie(nom, Siren(nom))
    ensures nom == "MAIF" ==> TrouverCompagnie([], nom, Siren(nom)).siren == "552120228"
    ensures nom !in SirenMapping ==> TrouverCompagnie([], nom, Siren(nom)).siren == SirenInconnu
  {
  }
}
