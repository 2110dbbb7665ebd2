/**
 * Access decisions of the application (solvabilite_app/views.py 29-81 and
 * the decorated views): a role gives a list of business permissions, and the
 * decorators grant access by plain list membership. Users, requests,
 * redirects and flash messages are not modelled; a decision is a boolean.
 */
module Permissions {

  /** The table of `get_user_permissions`, role code to its permissions in order. */
  const TablePermissions: map<string, seq<string>> := map[
    "ACTUAIRE" := ["calcul_scr", "calcul_avance", "voir_indicateurs", "exporter_rapports",
                   "voir_rapports_techniques"],
    "RISK_MANAGER" := ["calcul_scr", "voir_indicateurs", "exporter_rapports", "voir_rapports_risques",
                       "gestion_risques"],
    "CONTROLEUR" := ["voir_indicateurs", "exporter_rapports", "voir_rapports_conformite"],
    "DG" := ["voir_indicateurs", "exporter_rapports", "voir_rapports_strategiques", "prise_decision"],
    "CLIENT" := ["voir_indicateurs_publics", "voir_rapports_publics"],
    "CONSULTANT" := ["voir_indicateurs", "exporter_rapports", "analyses_consultation"],
    "REGULATEUR" := ["voir_indicateurs", "exporter_rapports", "supervision", "audit"],
    "ADMIN" := ["toutes_permissions"],
    "RH" := ["gestion_utilisateurs", "voir_indicateurs_rh"]
  ]

  /** The role codes the table knows. */
  const RolesConnus: set<string> :=
    {"ACTUAIRE", "RISK_MANAGER", "CONTROLEUR", "DG", "CLIENT", "CONSULTANT", "REGULATEUR", "ADMIN", "RH"}

  /** Roles of `@role_requis` on the standard calculation view (views.py 263, 269). */
  const RolesCalculScr: seq<string> := ["ACTUAIRE", "RISK_MANAGER", "ADMIN"]

  /** Roles of `@role_requis` on the advanced calculation view (views.py 375, 381). */
  const RolesCalculAvance: seq<string> := ["ACTUAIRE", "ADMIN"]

  /** `get_user_permissions(role)`: the table entry, or the empty list for an unknown role. */
  function GetUserPermissions(role: string): seq<string> {
    if role in TablePermissions then TablePermissions[role] else []
  }

  /** The test of `role_requis` (views.py 37): the user's role is one of the allowed ones. */
  predicate RoleRequis(rolesAutorises: seq<string>, role: string) {
    role in rolesAutorises
  }

  /** The test of `permission_requise` (views.py 54-56): the permission is in the role's list. */
  predicate PermissionRequise(permission: string, role: string) {
    permission in GetUserPermissions(role)
  }

  /**
   * `export_rapport_pdf` (views.py 624-636): the decorator requires
   * 'exporter_rapports'; a technical report is then reserved to ACTUAIRE
   * and ADMIN, a risk report to RISK_MANAGER, ADMIN and DG.
   */
  predicate AccesRapportPdf(role: string, rapportType: string) {
    PermissionRequise("exporter_rapports", role)
    && !(rapportType == "technique" && role !in ["ACTUAIRE", "ADMIN"])
    && !(rapportType == "risques" && role !in ["RISK_MANAGER", "ADMIN", "DG"])
  }

  /** The table covers exactly the nine role codes. */
  lemma TableComplete()
    ensures TablePermissions.Keys == RolesConnus
  {
  }

  /** A role the table does not know gets no permission at all. */
  lemma RoleInconnuSansPermission(role: string, permission: string)
    requires role !in RolesConnus
    ensures GetUserPermissions(role) == []
    ensures !PermissionRequise(permission, role)
  {
  }

  /**
   * 'toutes_permissions' is an ordinary list entry, not a wildcard: ADMIN
   * passes `permission_requise` for that string only.
   */
  lemma AdminUneSeulePermission(permission: string)
    ensures PermissionRequise(permission, "ADMIN") <==> permission == "toutes_permissions"
  {
  }

  /** Exactly six roles may export reports; ADMIN is not among them. */
  lemma RolesExportateurs(role: string)
    ensures PermissionRequise("exporter_rapports", role)
            <==> role in {"ACTUAIRE", "RISK_MANAGER", "CONTROLEUR", "DG", "CONSULTANT", "REGULATEUR"}
  {
  }

  /** A technical report reaches actuaries only, a risk report risk managers and the DG only. */
  lemma RapportsReserves(role: string)
    ensures AccesRapportPdf(role, "technique") <==> role == "ACTUAIRE"
    ensures AccesRapportPdf(role, "risques") <==> role == "RISK_MANAGER" || role == "DG"
  {
    RolesExportateurs(role);
  }

  /**
   * The ADMIN exceptions of the report checks are unreachable: the decorator
   * has already turned the administrator away.
   */
  lemma AdminRefuseExport(rapportType: string)
    ensures !AccesRapportPdf("ADMIN", rapportType)
  {
    RolesExportateurs("ADMIN");
  }

  /**
   * `role_requis` lets ADMIN into the advanced calculation, whereas the
   * permission of that name would refuse it.
   */
  lemma AdminCalculAvance()
    ensures RoleRequis(RolesCalculAvance, "ADMIN")
    ensures !PermissionRequise("calcul_avance", "ADMIN")
  {
    AdminUneSeulePermission("calcul_avance");
  }

  /** The advanced calculation is open to a subset of the roles of the standard one. */
  lemma CalculAvanceInclus(role: string)
    ensures RoleRequis(RolesCalculAvance, role) ==> RoleRequis(RolesCalculScr, role)
    ensures RoleRequis(RolesCalculScr, "RISK_MANAGER") && !RoleRequis(RolesCalculAvance, "RISK_MANAGER")
  {
  }

  /**
   * The permission test with 'toutes_permissions' read as a grant of every
   * permission, which the ADMIN entries of the report checks presuppose.
   */
  predicate PermissionRequiseCorrigee(permission: string, role: string) {
    permission in GetUserPermissions(role) || "toutes_permissions" in GetUserPermissions(role)
  }

  /** `export_rapport_pdf` over the corrected permission test. */
  predicate AccesRapportPdfCorrige(role: string, rapportType: string) {
    PermissionRequiseCorrigee("exporter_rapports", role)
    && !(rapportType == "technique" && role !in ["ACTUAIRE", "ADMIN"])
    && !(rapportType == "risques" && role !in ["RISK_MANAGER", "ADMIN", "DG"])
  }

  /**
   * With the correction ADMIN holds every permission and reaches every
   * report, while every other role keeps exactly its old rights.
   */
  lemma PermissionCorrigeeAdmin(permission: string, role: string, rapportType: string)
    ensures PermissionRequiseCorrigee(permission, "ADMIN")
    ensures AccesRapportPdfCorrige("ADMIN", rapportType)
    ensures role != "ADMIN" ==> (PermissionRequiseCorrigee(permission, role) <==> PermissionRequise(permission, role))
    ensures role != "ADMIN" ==> (AccesRapportPdfCorrige(role, rapportType) <==> AccesRapportPdf(role, rapportType))
  {
    if role != "ADMIN" {
      if role in TablePermissions {
        assert "toutes_permissions" !in TablePermissions[role];
      }
    }
  }
}
