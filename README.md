# Solvency II calculation core of `solvabilite_app`, in Dafny

This project models the computing core of `solvabilite_app`, a Django application. The app lets insurers enter a balance sheet and their risk modules, then computes their Solvency II indicators:

- the **SCR** (solvency capital requirement): four risk modules (market, credit, life, non-life) combined by a square-root correlation rule, plus the operational charge;
- the **MCR** (minimum capital requirement): the larger of 25 % of premiums and 15 % of technical provisions, held inside the 25 %–45 % corridor of the SCR;
- the **solvency ratio** (own funds over SCR, in percent) and the status bands derived from it;
- the role and permission decisions that guard the views;
- the automatic module totals of a stored balance-sheet record;
- the required-field checks of the two SCR forms, and the company → SIREN fallback at sign-up;
- the client-side password-strength score and the small financial helpers of the front-end script.

Amounts are `real`. The square root Python takes with `** 0.5` is a parameter `racine`, constrained by `EstRacine(x, r)` (`r >= 0` and `r * r == x`). The radicand is proved non-negative for every input, so such a root always exists.

Modules, one per source concern:

- `ScrStandard` (scr.dfy): `calculer_scr_standard`, the algebra of its radicand, and the properties of the result.
- `Mcr` (mcr.dfy): `calculer_mcr` and its corridor.
- `Statut` (statut.dfy): the five-band status classifier of the views and its inline copy in the PDF export.
- `PdfGenerateur` (pdf_generator.dfy): the four-band `get_statut_ratio` of the PDF helper.
- `Ratio` (ratio.dfy): the guarded ratio `fonds_propres / scr * 100`.
- `Permissions` (permissions.dfy): the role → permission table, the membership tests of the two decorators, and the per-report checks of the PDF export.
- `Vues` (vues.dfy): the decisions of the `calcul_scr` and `calcul_scr_avance` views, including the in-place percentage loop over the module entries, modelled on an `array`.
- `Modeles` (modeles.dfy): `Utilisateur.get_role_display`, the `DonneesSolvabilite` record (a `class` whose `Save` updates its module fields and `details_risques` in place), and `CalculSCR.ratio_solvabilite`.
- `Formulaires` (formulaires.dfy): the two `clean` methods, over a form object whose `AddError` behaves like Django's `add_error`; the SIREN mapping; and the assignment of a company at sign-up.
- `Scripts` (scripts.dfy): `checkPasswordStrength` (a method that scores one requirement at a time), the strength-bar classes, `calculateRatio`, `calculateExcessCapital` and `getToastIcon`.
- `Coherence` (coherence.dfy): the agreement between the standard view's required amounts and the required fields of its form.
- `Arithmetique` (arith.dfy) and `Wrappers` (wrappers.dfy): helper lemmas on products of reals, and the `Option` / `Result` types.

## Model

| member | source | states |
|---|---|---|
| ScrStandard.CalculerScrStandard | solvabilite_app/views.py:924-949 | The result is the root of `scr_base + 2 * correlations` plus the operational charge, so it is never below the operational charge. |
| ScrStandard.ScrBase | solvabilite_app/views.py:932-936 | `scr_base`, the sum of the four squares (no ensures of its own); its value is stated by `RadicandeDeveloppee` and, on a worked case, by `ScrExemple` (333). |
| ScrStandard.Correlations | solvabilite_app/views.py:938-944 | `correlations`, the six weighted cross products (no ensures of its own); stated by `RadicandeDeveloppee` and by `ScrExemple` (141.5). |
| ScrStandard.Radicande | solvabilite_app/views.py:946 | `scr_base + 2 * correlations` (no ensures of its own); `RadicandeDefiniePositive` proves it ≥ 0 and zero only for all-zero modules, and `ScrCaracterise` ties the result to it in both directions. |
| ScrStandard.RadicandeDeveloppee | solvabilite_app/views.py:932-944 | The radicand, the sum that the `+=` steps at views.py:932-944 build, equals m²+c²+v²+n² + 2(0.25mc+0.25mv+0.5mn+0.25cv+0.25cn+0.25vn). |
| ScrStandard.RadicandeSommeDeCarres | solvabilite_app/views.py:932-946 | The radicand is a non-negative weighted sum of eight squares, so the root in line 946 is always real. |
| ScrStandard.RadicandeNulle | solvabilite_app/views.py:932-946 | All-zero modules give a zero radicand. |
| ScrStandard.RadicandeDefiniePositive | solvabilite_app/views.py:932-946 | The radicand is ≥ 0 for every input, and it is 0 exactly when all four modules are 0. |
| ScrStandard.RacineCroissante | solvabilite_app/views.py:946 | The root preserves order. |
| ScrStandard.RacineStricteCroissante | solvabilite_app/views.py:946 | The root preserves strict order. |
| ScrStandard.RacinePositive | solvabilite_app/views.py:946 | The root of a positive radicand is positive. |
| ScrStandard.RacineUnique | solvabilite_app/views.py:946 | Two roots of one value agree, so the result does not depend on which root is meant. |
| ScrStandard.ScrCaracterise | solvabilite_app/views.py:932-947 | A value t is the result exactly when t − scr_operational is ≥ 0 and its square is `scr_base + 2 * correlations` (both directions). |
| ScrStandard.ScrPositif | solvabilite_app/views.py:946-947 | When any module is non-zero, the result is strictly above the operational charge. |
| ScrStandard.ScrSansModules | solvabilite_app/views.py:932-947 | All-zero modules yield exactly scr_operational. |
| ScrStandard.ScrModuleUnique | solvabilite_app/views.py:932-947 | With non-negative modules and at most one of them non-zero, the result is exactly that module plus scr_operational. |
| ScrStandard.ScrDiversifie | solvabilite_app/views.py:932-947 | With non-negative modules and at least two of them non-zero, the result is strictly below the plain sum of the modules plus scr_operational. |
| ScrStandard.ScrDomineChaqueModule | solvabilite_app/views.py:932-949 | With non-negative inputs, the result is ≥ every module and ≥ scr_operational. |
| ScrStandard.ScrCroissant | solvabilite_app/views.py:932-949 | With non-negative modules, the result is monotone non-decreasing in each module. |
| ScrStandard.ScrMajoreParSomme | solvabilite_app/views.py:932-949 | With non-negative modules, the result never exceeds the plain sum of the modules plus scr_operational. |
| ScrStandard.ScrExemple | solvabilite_app/views.py:924-949 | For modules (10, 5, 8, 12) and operational charge 2: scr_base is 333, correlations 141.5, the radicand 616, and the result lies strictly between 26.8 and 26.9. |
| Mcr.McrCalcule | solvabilite_app/views.py:958-960 | The result is one of 0.25·premium and 0.15·provisions, and it is ≥ both. |
| Mcr.CalculerMcr | solvabilite_app/views.py:952-966 | The MCR is always ≥ 0.25·SCR; when SCR ≥ 0 it is also ≤ 0.45·SCR. |
| Mcr.McrDansLeCorridor | solvabilite_app/views.py:958-964 | When max(0.25·premium, 0.15·provisions) already lies in [0.25·SCR, 0.45·SCR], the MCR equals it. |
| Mcr.McrHorsCorridor | solvabilite_app/views.py:962-964 | Below the corridor the MCR is 0.25·SCR; for SCR ≥ 0 and above the corridor it is 0.45·SCR. |
| Mcr.McrValeurs | solvabilite_app/views.py:964 | The MCR is always one of the floor, the cap or the calculated value. |
| Mcr.McrScrNegatif | solvabilite_app/views.py:962-964 | For a negative SCR the floor is applied last and wins: the MCR is 0.25·SCR. |
| Mcr.McrCroissant | solvabilite_app/views.py:958-964 | The MCR is monotone non-decreasing in premium and in provisions. |
| Mcr.McrOrdreIndifferent | solvabilite_app/views.py:964 | For SCR ≥ 0, applying the cap after the floor gives the same MCR. |
| Mcr.McrOrdreNegatif | solvabilite_app/views.py:964 | For SCR = −100 the order matters: the code gives −25, and cap-after-floor would give −45. |
| Mcr.McrExemple | solvabilite_app/views.py:952-966 | Worked cases: capped at 45, floored at 25, and in the corridor at 30. |
| Statut.DeterminerStatutSolvabilite | solvabilite_app/views.py:969-980 | The (label, colour) pair is that of the band `Classer` assigns to the ratio. |
| Statut.ClasserBandes | solvabilite_app/views.py:969-980 | The classifier is total, with inclusive lower bounds: ≥180 Très Solide, [150,180) Solide, [120,150) Conforme, [100,120) Surveillance, <100 Non Conforme (each an iff). |
| Statut.ClasserCroissant | solvabilite_app/views.py:969-980 | Raising the ratio never gives a worse band. |
| Statut.LibelleInjectif | solvabilite_app/views.py:969-980 | Distinct bands have distinct labels. |
| Statut.ConformeSiCentPourCent | solvabilite_app/views.py:977-980 | The status differs from "Non Conforme" exactly when the ratio is ≥ 100. |
| Statut.StatutExemples | solvabilite_app/views.py:969-980 | 150 maps to Solide/info, 149.99 to Conforme/primary, 100 to Surveillance/warning, and 99.99 and 0 to Non Conforme/danger. |
| Statut.StatutRapportPdf | solvabilite_app/views.py:732-746 | The inline PDF classifier gives the same band's label with the PDF's hex colour. |
| Statut.PdfMemeLibelle | solvabilite_app/views.py:732-746 | For every ratio, the inline PDF classifier gives the same label as `determiner_statut_solvabilite`. |
| PdfGenerateur.GetStatutRatio | solvabilite_app/utils/pdf_generator.py:88-97 | The label is the four-band label of the ratio's band, with rank 0 to 3. |
| PdfGenerateur.GetStatutRatioBandes | solvabilite_app/utils/pdf_generator.py:90-97 | EXCELLENT iff ≥180, BON iff [150,180), SURVEILLANCE iff [100,150), CRITIQUE iff <100. |
| PdfGenerateur.GetStatutRatioCroissant | solvabilite_app/utils/pdf_generator.py:88-97 | Raising the ratio never moves it to a worse label. |
| PdfGenerateur.ClassifieursCompares | solvabilite_app/utils/pdf_generator.py:94-95 | SURVEILLANCE covers exactly the view's Conforme and Surveillance bands, so 130 and 110 share a label here but not in the five-band classifier. |
| Ratio.RatioSolvabilite | solvabilite_app/views.py:324 | For scr ≤ 0 the ratio is 0; for scr > 0, ratio·scr = fonds_propres·100. |
| Ratio.RatioCentPourCent | solvabilite_app/views.py:324 | For scr > 0: ratio ≥ 100 iff own funds ≥ SCR, and ratio ≥ 0 iff own funds ≥ 0. |
| Ratio.RatioCroissant | solvabilite_app/views.py:324 | The ratio is monotone non-decreasing in own funds. |
| Ratio.StatutDuRatio | solvabilite_app/views.py:324-327 | For scr > 0 the status is Non Conforme iff own funds < SCR; for scr ≤ 0 it is always Non Conforme/danger. |
| Ratio.RatioExemple | solvabilite_app/views.py:324 | 150 over 100 gives 150 (Solide); a zero or negative SCR gives 0. |
| Permissions.GetUserPermissions | solvabilite_app/views.py:66-81 | The role → permission lookup with `[]` as default (no ensures of its own); `TableComplete` states its keys are exactly the nine roles, `RoleInconnuSansPermission` that an unknown role gets `[]`, `AdminUneSeulePermission` and `RolesExportateurs` what the entries grant. |
| Permissions.RoleRequis | solvabilite_app/views.py:37 | The membership test of `role_requis` (no ensures of its own); stated by `AdminCalculAvance` and `CalculAvanceInclus` for the two decorated views. |
| Permissions.PermissionRequise | solvabilite_app/views.py:54-56 | The membership test of `permission_requise` (no ensures of its own); stated by `RoleInconnuSansPermission`, `AdminUneSeulePermission` and `RolesExportateurs`. |
| Permissions.AccesRapportPdf | solvabilite_app/views.py:625-637 | The decorator test followed by the per-report checks (no ensures of its own); stated by `RapportsReserves` and `AdminRefuseExport`. |
| Permissions.TableComplete | solvabilite_app/views.py:66-81 | The permission table has an entry for exactly the nine known roles. |
| Permissions.RoleInconnuSansPermission | solvabilite_app/views.py:54-81 | An unknown role gets the empty list and fails every `permission_requise` test. |
| Permissions.AdminUneSeulePermission | solvabilite_app/views.py:78 | ADMIN passes `permission_requise(p)` only for p = 'toutes_permissions': it is not a wildcard. |
| Permissions.RolesExportateurs | solvabilite_app/views.py:56 | `permission_requise('exporter_rapports')` admits exactly ACTUAIRE, RISK_MANAGER, CONTROLEUR, DG, CONSULTANT and REGULATEUR. |
| Permissions.RapportsReserves | solvabilite_app/views.py:625-637 | Taking the decorator into account, the 'technique' report is open only to ACTUAIRE and the 'risques' report only to RISK_MANAGER and DG. |
| Permissions.AdminRefuseExport | solvabilite_app/views.py:625-637 | ADMIN is refused every PDF report, despite being listed at 631 and 635. |
| Permissions.AdminCalculAvance | solvabilite_app/views.py:375 | ADMIN passes `role_requis` for the advanced calculation, yet has no 'calcul_avance' permission. |
| Permissions.CalculAvanceInclus | solvabilite_app/views.py:263-375 | Every role admitted to the advanced calculation is admitted to the standard one; RISK_MANAGER only to the standard one. |
| Permissions.PermissionCorrigeeAdmin | solvabilite_app/views.py:78 | With 'toutes_permissions' read as a wildcard, ADMIN passes every test and may export every report, and every other role is decided as before. |
| Vues.AvecPourcentages | solvabilite_app/views.py:351-355 | Every entry becomes a detail that keeps its amount and carries its share: pourcentage·total = valeur·100; the number of entries is kept. |
| Vues.AjouterPourcentages | solvabilite_app/views.py:349-355 | The in-place loop leaves the array equal to `ModulesAffiches` of its old contents: when the total is > 0, each entry holds its amount and its share (pourcentage·total = valeur·100); otherwise the array is unchanged. The same loop is at 505-512. |
| Vues.ModulesAffiches | solvabilite_app/views.py:349-355 | The entries as displayed (no ensures of its own); `AjouterPourcentages` is proved equal to it, `AvecPourcentages` gives each entry's share, and `PourcentagesCentPourCent` proves the shares sum to 100. |
| Vues.SommeAvecPourcentages | solvabilite_app/views.py:349-355 | The unrounded shares sum to total/divisor·100. |
| Vues.PourcentagesCentPourCent | solvabilite_app/views.py:349-355 | When the module total is > 0, the unrounded shares sum to 100. |
| Vues.TousRenseignes | solvabilite_app/views.py:301-303 | `all([...])` holds iff no amount is zero. |
| Vues.Obligatoires | solvabilite_app/views.py:301-303 | The check covers seven amounts; `Coherence.ObligatoiresCommeLeFormulaire` states which. |
| Coherence.ObligatoiresCommeLeFormulaire | solvabilite_app/views.py:288-303 | The i-th amount the view checks is the POST value of the i-th field of the form's required list (forms.py:248-252), for all seven. |
| Vues.EvaluerScrPositif | solvabilite_app/views.py:321-327 | For scr > 0: ratio·scr = own funds·100, 0.25·scr ≤ mcr ≤ 0.45·scr, and Non Conforme iff own funds < scr. |
| Vues.EvaluerScrNonPositif | solvabilite_app/views.py:324-327 | For scr ≤ 0: the ratio is 0 and the status is Non Conforme/danger. |
| Vues.Evaluer | solvabilite_app/views.py:321-327 | MCR, ratio and status from an SCR, shared by both views (453-457) (no ensures of its own); stated by `EvaluerScrPositif` and `EvaluerScrNonPositif`. |
| Vues.IndicateursScrPositif | solvabilite_app/views.py:321-327 | The same three facts, read off a computed set of indicators. |
| Vues.CalculScrRefus | solvabilite_app/views.py:288-310 | `calcul_scr` refuses exactly when one of the seven amounts is zero, always with "Tous les champs obligatoires doivent être remplis"; a missing field reads as 0 and so refuses. |
| Vues.CalculScr | solvabilite_app/views.py:264-371 | The standard view's decision (no ensures of its own); stated by `CalculScrRefus`, `CalculScrAccepte`, `CalculScrPourcentages` and `Coherence.ObligatoiresCommeLeFormulaire`. |
| Vues.CalculScrAccepte | solvabilite_app/views.py:301-327 | An accepted standard calculation has scr > 0, so the ratio's zero branch never applies. Also ratio·scr = own funds·100, the MCR is in its corridor, and Non Conforme iff own funds < scr. |
| Vues.CalculScrPourcentages | solvabilite_app/views.py:340-355 | When the module total is > 0, the displayed shares of an accepted calculation sum to 100. |
| Vues.CalculScrAvanceRefus | solvabilite_app/views.py:433-440 | `calcul_scr_avance` refuses exactly when own funds or technical provisions are zero, with the base-data message. |
| Vues.CalculScrAvance | solvabilite_app/views.py:376-530 | The advanced view's decision (no ensures of its own); stated by `CalculScrAvanceRefus`, `IndicateursAvances`, `CalculScrAvanceModules`, `CalculScrAvanceSansRisques`, `CalculScrAvanceScrNonPositif` and `CalculScrAvanceMajore`. |
| Vues.IndicateursAvances | solvabilite_app/views.py:443-457 | The indicators are those of the correlated SCR of the four sub-risk sums plus the operational charge. |
| Vues.CalculScrAvanceModules | solvabilite_app/views.py:443-446 | The four displayed modules carry the sums of their three sub-risks, in the order market, credit, life, non-life. |
| Vues.CalculScrAvanceSansRisques | solvabilite_app/views.py:443-450 | With all sub-risk sums zero, the SCR is the operational charge alone. |
| Vues.CalculScrAvanceScrNonPositif | solvabilite_app/views.py:456-457 | An SCR ≤ 0 (possible through a negative operational charge) gives ratio 0 and Non Conforme. |
| Vues.CalculScrAvanceMajore | solvabilite_app/views.py:443-450 | With non-negative sub-risk sums, the SCR never exceeds their plain sum plus the operational charge. |
| Modeles.Chercher | solvabilite_app/models.py:75 | `dict(ROLE_CHOICES).get(code)` finds nothing iff no pair has that code, and otherwise finds a label paired with it. |
| Modeles.CodesDeRoles | solvabilite_app/models.py:54-64 | The nine role codes are pairwise distinct, and they are exactly the roles of the permission table. |
| Modeles.Utilisateur.constructor | solvabilite_app/models.py:66-68 | A new user has role CLIENT, an empty phone number and no company. |
| Modeles.Utilisateur.GetRoleDisplay | solvabilite_app/models.py:73-75 | The display is the label paired with the role code, or the code itself when no pair has it. |
| Modeles.RoleConnuAffiche | solvabilite_app/models.py:73-75 | A known role code displays its own label. |
| Modeles.RoleInconnuAffiche | solvabilite_app/models.py:73-75 | An unknown role code displays as itself. |
| Modeles.TotalAuto | solvabilite_app/models.py:133-134 | If any of the three sub-risks is non-zero, the total is their sum; otherwise the current total is kept. |
| Modeles.TotalAutoIdempotent | solvabilite_app/models.py:133-143 | Recomputing a total a second time changes nothing. |
| Modeles.TotalAutoSaisieDirecte | solvabilite_app/models.py:133-143 | With no sub-risk entered, a directly entered module total is kept. |
| Modeles.SommeDeTrois | solvabilite_app/models.py:146-171 | The total of a three-entry detail is the sum of its three amounts. |
| Modeles.DonneesSolvabilite.constructor | solvabilite_app/models.py:83-118 | Every amount defaults to 0 and `details_risques` starts empty. |
| Modeles.DonneesSolvabilite.TotaliserMarche | solvabilite_app/models.py:133-134 | scr_marche becomes `TotalAuto` of its three sub-risks, and no other field changes. |
| Modeles.DonneesSolvabilite.TotaliserCredit | solvabilite_app/models.py:136-137 | The same rule for scr_credit. |
| Modeles.DonneesSolvabilite.TotaliserVie | solvabilite_app/models.py:139-140 | The same rule for scr_vie. |
| Modeles.DonneesSolvabilite.TotaliserNonVie | solvabilite_app/models.py:142-143 | The same rule for scr_non_vie. |
| Modeles.DonneesSolvabilite.Save | solvabilite_app/models.py:130-173 | Each module total follows its own rule, independently of the other modules, and nothing but the four totals and `details_risques` changes. `details_risques` then mirrors every sub-risk field and every post-update total; when a module's sub-risks were entered, its detail's total is the sum of its entries. |
| Modeles.DonneesSolvabilite.EquilibreBilan | solvabilite_app/models.py:184-196 | The balance is (placements + immobilisations) − (fonds_propres + passif_technique): zero iff the sheet balances, positive iff assets exceed liabilities. |
| Modeles.DonneesSolvabilite.TotalScr | solvabilite_app/models.py:176-180 | The linear sum of the five module fields (no ensures of its own); `TotalScrMajoreScrCorrele` relates it to the correlated SCR. |
| Modeles.DonneesSolvabilite.TotalActif | solvabilite_app/models.py:184-186 | placements + immobilisations (no ensures of its own); `EquilibreBilan` states the balance in terms of the fields. |
| Modeles.DonneesSolvabilite.TotalPassif | solvabilite_app/models.py:189-191 | fonds_propres + passif_technique (no ensures of its own); `EquilibreBilan` states the balance in terms of the fields. |
| Modeles.TotalScrMajoreScrCorrele | solvabilite_app/models.py:176-180 | With non-negative modules, the linear `total_scr` is ≥ the correlated SCR of the same modules, and equal to it iff at most one module is non-zero. |
| Modeles.CalculScr.constructor | solvabilite_app/models.py:199-203 | A stored calculation keeps its record, method and result. |
| Modeles.CalculScr.RatioSolvabilite | solvabilite_app/models.py:215-219 | For result ≤ 0 the ratio is 0; otherwise ratio·result = own funds·100. |
| Modeles.RatioStockeCommeAffiche | solvabilite_app/models.py:215-219 | The stored calculation's ratio is the one the views compute. |
| Formulaires.Signales | solvabilite_app/forms.py:254-255 | A field is flagged iff it is in the list and is missing or false. |
| Formulaires.Formulaire.constructor | solvabilite_app/forms.py:243-245 | A fresh bound form holding the given cleaned data and no errors yet. It is not the state at line 245, where field cleaning may already have recorded errors; the `clean` contracts therefore start from whatever errors the form holds. |
| Formulaires.Formulaire.AddError | solvabilite_app/forms.py:256 | The message is appended to the field's errors, and the field is removed from cleaned_data, as Django's `add_error` does. |
| Formulaires.SignalerManquants | solvabilite_app/forms.py:254-256 | After the loop, the flagged fields are removed from cleaned_data and each carries one more message; all other errors are unchanged. |
| Formulaires.ObligatoiresDistincts | solvabilite_app/forms.py:248-252 | The seven required fields are distinct. |
| Formulaires.CleanCalculScr | solvabilite_app/forms.py:243-258 | Exactly the required fields that are missing or false get "Ce champ est obligatoire". The returned cleaned_data is the input minus those fields. |
| Formulaires.SignalementsCalculScr | solvabilite_app/forms.py:248-256 | A field is flagged iff it is required and missing or false; a zero amount is flagged; `date_reference` never is. |
| Formulaires.CleanCalculScrAvance | solvabilite_app/forms.py:376-387 | Own funds and technical provisions each get their own message when missing or false. Those are the only fields flagged or removed from cleaned_data. |
| Formulaires.SignalementsCalculScrAvance | solvabilite_app/forms.py:381-385 | The advanced form flags nothing but fonds_propres and passif_technique. |
| Formulaires.Siren | solvabilite_app/forms.py:67-79 | A listed company gets its mapped SIREN, and an unlisted name gets '000000000'. |
| Formulaires.SirenDistincts | solvabilite_app/forms.py:67-79 | Every SIREN is nine digits. The nine listed SIRENs are pairwise distinct and never the fallback. |
| Formulaires.Premiere | solvabilite_app/forms.py:84-88 | A lookup by SIREN (line 84) or by name (line 88) finds a stored company whose field matches, or finds none iff no stored company matches. |
| Formulaires.TrouverCompagnie | solvabilite_app/forms.py:81-102 | The company has the SIREN or the name looked for and is stored or new. When a stored company has the SIREN, the result is a stored one with that SIREN. Otherwise, when one has the name, the result is a stored one with that name. When none has either, it is the new company with both. |
| Formulaires.EnregistrerInscription | solvabilite_app/forms.py:57-104 | The chosen role is stored. An empty or 'AUTRE' company assigns none; any other gets `TrouverCompagnie` of the stored companies, its name and its SIREN: found by SIREN first, then by name, otherwise new. |
| Formulaires.CompagnieCreee | solvabilite_app/forms.py:79-102 | With nothing stored, the new company gets the mapped SIREN (MAIF: 552120228) or the fallback for an unlisted name. |
| Scripts.NombreSatisfaites | solvabilite_app/static/solvabilite_app/js/scripts.js:133-172 | The score is at most 5; it is 0 iff no flag holds, and 5 iff all five hold. |
| Scripts.Exigences | solvabilite_app/static/solvabilite_app/js/scripts.js:143-170 | The five tests of a password (no ensures of its own); `CheckPasswordStrength` is proved to compute it, and `ScoreDuMotDePasse` states when all five hold. |
| Scripts.CheckPasswordStrength | solvabilite_app/static/solvabilite_app/js/scripts.js:132-173 | The requirements are the five tests of the password, and the strength is the number of them that hold. |
| Scripts.ScoreDuMotDePasse | solvabilite_app/static/solvabilite_app/js/scripts.js:143-170 | The score is 5 iff length ≥ 8 and there is an A–Z, an a–z, a 0–9 and a listed special character. Below 8 characters it is ≤ 4, and the empty password scores 0. |
| Scripts.ScoreFort | solvabilite_app/static/solvabilite_app/js/scripts.js:143-170 | "Solva2024!" scores 5. |
| Scripts.SpeciauxSansMinuscule | solvabilite_app/static/solvabilite_app/js/scripts.js:167 | No listed special character is a lower-case letter. |
| Scripts.ScoreFaible | solvabilite_app/static/solvabilite_app/js/scripts.js:143-170 | "abc" scores 1. |
| Scripts.ClasseForce | solvabilite_app/static/solvabilite_app/js/scripts.js:215-226 | There is no strength class iff the password is empty. |
| Scripts.ClasseDuMotDePasse | solvabilite_app/static/solvabilite_app/js/scripts.js:207-226 | The bar class computed from the score (no ensures of its own); stated by `ClassesDesMotsDePasse`. |
| Scripts.ClassesDesMotsDePasse | solvabilite_app/static/solvabilite_app/js/scripts.js:215-226 | A non-empty password is 'strong' iff it scores 5, 'good' at 4, 'medium' at 3 and 'weak' at ≤ 2; below 8 characters it is never 'strong'. |
| Scripts.CalculateRatio | solvabilite_app/static/solvabilite_app/js/scripts.js:325-328 | A zero denominator gives 0; otherwise ratio·denominator = numerator·100. |
| Scripts.CalculateExcessCapital | solvabilite_app/static/solvabilite_app/js/scripts.js:330-332 | The excess plus the SCR gives back the own funds. |
| Scripts.ExcedentSiCentPourCent | solvabilite_app/static/solvabilite_app/js/scripts.js:325-332 | For scr > 0 the excess is ≥ 0 iff the ratio is ≥ 100. |
| Scripts.RatioClientServeur | solvabilite_app/static/solvabilite_app/js/scripts.js:325-328 | For denominator ≥ 0 the client ratio equals the server one. For a negative denominator and a non-zero numerator they differ: the server guards `> 0`, the client only `=== 0`. |
| Scripts.GetToastIcon | solvabilite_app/static/solvabilite_app/js/scripts.js:299-307 | The icon is always one of the three icon names. |
| Scripts.IconesDesToasts | solvabilite_app/static/solvabilite_app/js/scripts.js:299-307 | 'error' and 'warning' share 'exclamation-triangle', 'success' gets 'check-circle', 'info' gets 'info-circle', and any unknown type gets 'info-circle'. |

## Left out

- Square root: Python's `x ** 0.5` is not computed. It is the parameter `racine`, specified by `EstRacine`. Its existence is guaranteed by `RadicandeDefiniePositive`, since the radicand is never negative, but the existence of a real root is not itself proved. For the same reason, Python's complex result for a negative radicand cannot occur.
- Floating point and rounding: amounts are exact reals. Not modelled:
  - IEEE `float` behaviour;
  - `round(..., 2)` and `round(..., 1)` on the displayed results;
  - the `Decimal(str(float))` round trip in `calculer_mcr`;
  - the two-decimal `DecimalField` storage.
  The percentage property is about the unrounded shares.
- Request parsing: the views' `Decimal(request.POST.get(...))` conversions are taken as already done. A POST is a map from field name to amount, and a missing key reads as 0. The exception handlers for malformed numbers, and `date_reference`, are not modelled.
- Rendering and persistence: `render`, `redirect`, flash messages, ORM queries, `sauvegarder_calcul_scr` / `sauvegarder_calcul_avance`, `super().save()` and the dashboard data in `get_donnees_tableau_bord` are framework plumbing and are left out.
- The inline role check at the top of `calcul_scr_avance` (views.py:381-383) repeats its decorator. Only the decorator test is modelled, as `Permissions.RoleRequis`.
- Modeles.DonneesSolvabilite.TotalScr: the `try/except (TypeError, ValueError)` fallback to 0.0 in `total_scr` cannot fire on numeric fields, and is not modelled.
- Vues.CalculScrAvance: the advanced view keeps the operational charge as a raw number beside the four module entries (views.py:478). It is modelled as a separate `operationnel` field. The percentage loop touches only the four modules, as in the source.
- Formulaires.CleanCalculScr and Formulaires.CleanCalculScrAvance do not return cleaned_data "unchanged". Django's `add_error` removes the flagged field from `cleaned_data`, and the two `clean` methods return that same dictionary. The model therefore states that the returned data is the input minus the flagged fields, and unchanged for every other field.
- Forms: `super().clean()` field parsing is taken as done; a non-numeric value is simply absent from the cleaned data. The uniqueness checks `clean_email` / `clean_siren` are database queries and are left out.
- Formulaires.TrouverCompagnie: the database lookups `Compagnie.objects.get(siren=...)` and `get(nom=...)` are read over a sequence `base` of stored companies, taking the first match. `MultipleObjectsReturned` and the default attributes of a created company (capital, address, email) are left out.
- Scripts: string length is a count of characters, whereas JavaScript counts UTF-16 code units. Also left out:
  - the DOM updates of `updatePasswordStrength` (bar width, colour, requirement list);
  - the fact that in `getToastIcon` a prototype key such as "constructor" can reach the object lookup.
- PDF generation (`generate_rapport_*`), charts, the external-API service and configuration are foreign code or configuration, and are not part of this model.

## Findings

| source | as written | input that shows it | evidently intended | confidence | as-written member | corrected member |
|---|---|---|---|---|---|---|
| solvabilite_app/views.py:625-637 | `export_rapport_pdf` is guarded by `permission_requise('exporter_rapports')`, and ADMIN's only permission is 'toutes_permissions' (views.py:78). So the decorator refuses ADMIN before the per-report checks, which list ADMIN explicitly at 631 and 635. | role 'ADMIN', any `rapport_type` | 'toutes_permissions' grants every permission, so an administrator may export every report | medium, not executed | Permissions.AdminRefuseExport | Permissions.PermissionCorrigeeAdmin |
