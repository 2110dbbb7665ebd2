/**
 * The client-side helpers of solvabilite_app/static/solvabilite_app/js/
 * scripts.js that compute something: the password strength score and its
 * bar class, the ratio and excess-capital helpers of `FinancialUtils`, and
 * the toast icon lookup. The DOM updates around them are not modelled. A
 * JavaScript string is modelled as a sequence of characters.
 */
module Scripts {

  import opened Wrappers
  import Ratio

  /** The `requirements` object of `checkPasswordStrength`. */
  datatype Requirements = Requirements(length: bool, uppercase: bool, lowercase: bool, number: bool, special: bool)

  /** The characters of the special-character class of the strength check. */
  const Speciaux: string := "!@#$%^&*()_+-=[]{};':\"\\|,.<>?`~"

  /** `/[A-Z]/.test(password)` and its siblings: some character of the password lies in the range. */
  predicate ContientEntre(password: string, bas: char, haut: char) {
    exists i :: 0 <= i < |password| && bas <= password[i] <= haut
  }

  /** `/[!@#...~]/.test(password)`: some character of the password is a special character. */
  predicate ContientSpecial(password: string) {
    exists i :: 0 <= i < |password| && password[i] in Speciaux
  }

  /** Which of the five rules a password meets. */
  function Exigences(password: string): (r: Requirements) {
    Requirements(|password| >= 8, ContientEntre(password, 'A', 'Z'), ContientEntre(password, 'a', 'z'),
                 ContientEntre(password, '0', '9'), ContientSpecial(password))
  }

  /** The number of rules met. */
  function NombreSatisfaites(r: Requirements): (n: nat)
    ensures n <= 5
    ensures n == 0 <==> !r.length && !r.uppercase && !r.lowercase && !r.number && !r.special
    ensures n == 5 <==> r.length && r.uppercase && r.lowercase && r.number && r.special
  {
    (if r.length then 1 else 0) + (if r.uppercase then 1 else 0) + (if r.lowercase then 1 else 0)
    + (if r.number then 1 else 0) + (if r.special then 1 else 0)
  }

  /**
   * `checkPasswordStrength`: one point per rule met, with the flag of each
   * rule set when and only when it is met.
   */
  method CheckPasswordStrength(password: string) returns (strength: nat, requirements: Requirements)
    ensures requirements == Exigences(password)
    ensures strength == NombreSatisfaites(requirements)
  {
    strength := 0;
    requirements := Requirements(false, false, false, false, false);
    if |password| >= 8 {
      strength := strength + 1;
      requirements := requirements.(length := true);
    }
    if ContientEntre(password, 'A', 'Z') {
      strength := strength + 1;
      requirements := requirements.(uppercase := true);
    }
    if ContientEntre(password, 'a', 'z') {
      strength := strength + 1;
      requirements := requirements.(lowercase := true);
    }
    if ContientEntre(password, '0', '9') {
      strength := strength + 1;
      requirements := requirements.(number := true);
    }
    if ContientSpecial(password) {
      strength := strength + 1;
      requirements := requirements.(special := true);
    }
  }

  /**
   * The score of a password is at most 5; it is 5 exactly when the password
   * has eight characters or more and an upper-case letter, a lower-case
   * letter, a digit and a special character; a short password never has 5.
   */
  lemma ScoreDuMotDePasse(password: string)
    ensures NombreSatisfaites(Exigences(password)) <= 5
    ensures NombreSatisfaites(Exigences(password)) == 5
            <==> |password| >= 8 && ContientEntre(password, 'A', 'Z') && ContientEntre(password, 'a', 'z')
                 && ContientEntre(password, '0', '9') && ContientSpecial(password)
    ensures |password| < 8 ==> NombreSatisfaites(Exigences(password)) <= 4
    ensures password == [] ==> NombreSatisfaites(Exigences(password)) == 0
  {
  }

  /** "Solva2024!" meets all five rules. */
  lemma ScoreFort()
    ensures NombreSatisfaites(Exigences("Solva2024!")) == 5
  {
    var fort := "Solva2024!";
    assert 'A' <= fort[0] <= 'Z' && 'a' <= fort[1] <= 'z' && '0' <= fort[5] <= '9';
    assert fort[9] == Speciaux[0];
  }

  /** No special character is a lower-case letter. */
  lemma SpeciauxSansMinuscule()
    ensures forall c :: c in Speciaux ==> !('a' <= c <= 'z')
  {
    forall j | 0 <= j < |Speciaux|
      ensures !('a' <= Speciaux[j] <= 'z')
    {
    }
  }

  /** "abc" meets only the lower-case rule. */
  lemma ScoreFaible()
    ensures NombreSatisfaites(Exigences("abc")) == 1
  {
    var faible := "abc";
    assert 'a' <= faible[0] <= 'z';
    SpeciauxSansMinuscule();
    forall i | 0 <= i < |faible|
      ensures !('A' <= faible[i] <= 'Z') && !('0' <= faible[i] <= '9') && faible[i] !in Speciaux
    {
      assert 'a' <= faible[i] <= 'c';
    }
  }

  /**
   * The class `updatePasswordStrength` puts on the strength bar: none for
   * an empty password, then weak up to 2 points, medium at 3, good at 4 and
   * strong above.
   */
  function ClasseForce(password: string, strength: nat): (classe: Option<string>)
    ensures classe.None? <==> |password| == 0
  {
    if |password| == 0 then None
    else if strength <= 2 then Some("password-strength-weak")
    else if strength == 3 then Some("password-strength-medium")
    else if strength == 4 then Some("password-strength-good")
    else Some("password-strength-strong")
  }

  /** The bar class of a password, as `updatePasswordStrength` computes it from `checkPasswordStrength`. */
  function ClasseDuMotDePasse(password: string): Option<string> {
    ClasseForce(password, NombreSatisfaites(Exigences(password)))
  }

  /**
   * Only a password meeting all five rules is shown strong; a short
   * non-empty one is at best good; three rules give medium, four good, and
   * two or fewer weak.
   */
  lemma ClassesDesMotsDePasse(password: string)
    requires |password| > 0
    ensures ClasseDuMotDePasse(password) == Some("password-strength-strong")
            <==> NombreSatisfaites(Exigences(password)) == 5
    ensures |password| < 8 ==> ClasseDuMotDePasse(password) != Some("password-strength-strong")
    ensures NombreSatisfaites(Exigences(password)) <= 2 ==> ClasseDuMotDePasse(password) == Some("password-strength-weak")
    ensures NombreSatisfaites(Exigences(password)) == 3 ==> ClasseDuMotDePasse(password) == Some("password-strength-medium")
    ensures NombreSatisfaites(Exigences(password)) == 4 ==> ClasseDuMotDePasse(password) == Some("password-strength-good")
  {
    ScoreDuMotDePasse(password);
  }

  /** `FinancialUtils.calculateRatio`: the quotient in percent, 0 when the denominator is exactly 0. */
  function CalculateRatio(numerator: real, denominator: real): (ratio: real)
    ensures denominator == 0.0 ==> ratio == 0.0
    ensures denominator != 0.0 ==> ratio * denominator == numerator * 100.0
  {
    if denominator == 0.0 then 0.0 else numerator / denominator * 100.0
  }

  /** `FinancialUtils.calculateExcessCapital`: own funds beyond the SCR. */
  function CalculateExcessCapital(fondsPropres: real, scr: real): (excedent: real)
    ensures excedent + scr == fondsPropres
  {
    fondsPropres - scr
  }

  /** Against a positive SCR, capital is in excess exactly when the ratio reaches 100 %. */
  lemma ExcedentSiCentPourCent(fondsPropres: real, scr: real)
    requires scr > 0.0
    ensures CalculateExcessCapital(fondsPropres, scr) >= 0.0 <==> CalculateRatio(fondsPropres, scr) >= 100.0
  {
    Ratio.RatioCentPourCent(fondsPropres, scr);
  }

  /**
   * The client ratio agrees with the server's for a positive or zero
   * denominator, and differs for a negative one: the server guards with
   * `scr > 0`, the client only with `denominator === 0`.
   */
  lemma RatioClientServeur(numerator: real, denominator: real)
    ensures denominator >= 0.0 ==> CalculateRatio(numerator, denominator) == Ratio.RatioSolvabilite(numerator, denominator)
    ensures denominator < 0.0 && numerator != 0.0 ==>
              CalculateRatio(numerator, denominator) != Ratio.RatioSolvabilite(numerator, denominator)
  {
    if denominator < 0.0 && numerator != 0.0 {
      var q := numerator / denominator;
      assert q != 0.0;
    }
  }

  /** The icons of `getToastIcon`. */
  const Icones: map<string, string> := map[
    "success" := "check-circle",
    "error" := "exclamation-triangle",
    "warning" := "exclamation-triangle",
    "info" := "info-circle"
  ]

  /** `getToastIcon(type)`: the icon of a known type, 'info-circle' for anything else. */
  function GetToastIcon(typeToast: string): (icone: string)
    ensures icone in {"check-circle", "exclamation-triangle", "info-circle"}
  {
    if typeToast in Icones then Icones[typeToast] else "info-circle"
  }

  /** Errors and warnings share an icon; an unknown type gets the info icon. */
  lemma IconesDesToasts(typeToast: string)
    ensures GetToastIcon("error") == GetToastIcon("warning") == "exclamation-triangle"
    ensures GetToastIcon("success") == "check-circle"
    ensures GetToastIcon("info") == "info-circle"
    ensures typeToast !in {"success", "error", "warning", "info"} ==> GetToastIcon(typeToast) == "info-circle"
  {
  }
}
