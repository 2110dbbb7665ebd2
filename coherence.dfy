/**
 * Agreement between the standard calculation view and its form: the seven
 * amounts `calcul_scr` requires (views.py 288-303) are read from exactly the
 * seven fields `CalculSCRForm.clean` requires (forms.py 248-252), in the
 * same order.
 */
module Coherence {

  import Vues
  import Formulaires

  lemma ObligatoiresCommeLeFormulaire(post: Vues.Post)
    ensures |Formulaires.ChampsObligatoires| == 7
    ensures forall i :: 0 <= i < 7 ==>
              Vues.Obligatoires(Vues.LireSaisieStandard(post))[i] == Vues.Lire(post, Formulaires.ChampsObligatoires[i])
  {
  }
}
