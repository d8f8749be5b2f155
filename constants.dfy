/**
 * Shared constants (src/lib/constants.ts): the Mexican states offered for a profile's
 * region, the public trust-level labels, and the validators for RFC (tax id), CURP
 * (population registry key) and cédula profesional (licence number).
 *
 * Each regular expression is modelled position by position as the predicate of the
 * strings it accepts.
 */
module Constants {
  import opened Database
  import opened Text
  import Trust

  // ---------------------------------------------------------------------------
  // MX_STATES

  datatype State = State(value: string, name: string)

  const MxStates: seq<State> := [
    State("AGS", "Aguascalientes"), State("BCN", "Baja California"), State("BCS", "Baja California Sur"),
    State("CAM", "Campeche"), State("CHP", "Chiapas"), State("CHI", "Chihuahua"),
    State("CDMX", "Ciudad de México"), State("COA", "Coahuila"), State("COL", "Colima"),
    State("DUR", "Durango"), State("MEX", "Estado de México"), State("GTO", "Guanajuato"),
    State("GRO", "Guerrero"), State("HGO", "Hidalgo"), State("JAL", "Jalisco"),
    State("MIC", "Michoacán"), State("MOR", "Morelos"), State("NAY", "Nayarit"),
    State("NLE", "Nuevo León"), State("OAX", "Oaxaca"), State("PUE", "Puebla"),
    State("QRO", "Querétaro"), State("ROO", "Quintana Roo"), State("SLP", "San Luis Potosí"),
    State("SIN", "Sinaloa"), State("SON", "Sonora"), State("TAB", "Tabasco"),
    State("TAM", "Tamaulipas"), State("TLX", "Tlaxcala"), State("VER", "Veracruz"),
    State("YUC", "Yucatán"), State("ZAC", "Zacatecas")]

  /** The 32 federal entities, each under its own code. */
  lemma StatesDistinct()
    ensures |MxStates| == 32
    ensures forall i, j :: 0 <= i < j < |MxStates| ==> MxStates[i].value != MxStates[j].value
  {
    FirstHalfDistinct();
    SecondHalfDistinct();
    HalvesDisjoint();
  }

  lemma FirstHalfDistinct()
    ensures forall i, j :: 0 <= i < j < 16 ==> MxStates[i].value != MxStates[j].value
  {
  }

  lemma SecondHalfDistinct()
    ensures forall i, j :: 16 <= i < j < 32 ==> MxStates[i].value != MxStates[j].value
  {
  }

  lemma HalvesDisjoint()
    ensures forall i, j :: 0 <= i < 16 <= j < 32 ==> MxStates[i].value != MxStates[j].value
  {
  }

  // ---------------------------------------------------------------------------
  // TRUST_LEVEL_LABELS

  function TrustLevelLabels(): map<int, string> {
    map[0 := "Sin verificar", 1 := "Email confirmado", 2 := "Documentos enviados", 3 := "Verificado"]
  }

  /** There is a label for exactly the four trust levels. */
  lemma TrustLabelsCoverLevels()
    ensures TrustLevelLabels().Keys == {0, 1, 2, 3}
  {
  }

  /**
   * The public label agrees with the trust table's own label (the `label` of each
   * `TRUST_CONFIGS` entry, see Trust.ConfigLabelIsLevelLabel) except at level 2, where the
   * public pages say "Documentos enviados" and the trust table "Verificación en proceso".
   */
  lemma TrustLabelsMatchConfig(level: TrustLevel)
    ensures TrustLevelLabels()[level] == Trust.LevelLabel(level) <==> level != 2
  {
    if level == 2 {
      assert TrustLevelLabels()[2][0] == 'D' && Trust.LevelLabel(2)[0] == 'V';
    } else {
      LabelsAgreeOutsideReview(level);
    }
  }

  lemma LabelsAgreeOutsideReview(level: TrustLevel)
    requires level != 2
    ensures TrustLevelLabels()[level] == Trust.LevelLabel(level)
  {
  }

  // ---------------------------------------------------------------------------
  // Character classes

  predicate Upper(c: char) {
    'A' <= c <= 'Z'
  }

  /** `[A-Z&Ñ]`. */
  predicate RfcLetter(c: char) {
    Upper(c) || c == '&' || c == '\U{D1}'
  }

  /** `[A-Z0-9]`. */
  predicate UpperOrDigit(c: char) {
    Upper(c) || IsDigit(c)
  }

  predicate All(s: string, p: char -> bool) {
    forall i :: 0 <= i < |s| ==> p(s[i])
  }

  // ---------------------------------------------------------------------------
  // RFC_REGEX: /^[A-Z&Ñ]{3,4}[0-9]{6}[A-Z0-9]{3}$/

  /** The RFC shape with a name part of `k` letters. */
  predicate RfcWith(s: string, k: nat) {
    |s| == k + 9 && All(s[..k], RfcLetter) && All(s[k..k + 6], IsDigit) && All(s[k + 6..], UpperOrDigit)
  }

  predicate IsRfc(s: string) {
    RfcWith(s, 3) || RfcWith(s, 4)
  }

  /**
   * An accepted RFC has 12 characters (a company's three-letter name part) or 13 (a
   * person's four letters); its length decides which, and its last nine characters are
   * six digits and three letters or digits.
   */
  lemma RfcShape(s: string)
    requires IsRfc(s)
    ensures |s| == 12 || |s| == 13
    ensures |s| == 12 <==> RfcWith(s, 3)
    ensures |s| == 13 <==> RfcWith(s, 4)
    ensures All(s[|s| - 9..|s| - 3], IsDigit) && All(s[|s| - 3..], UpperOrDigit)
  {
  }

  /** An accepted RFC passes through the profile form's trim and upper-casing unchanged. */
  lemma RfcSurvivesUpperCasing(s: string)
    requires IsRfc(s)
    ensures Trim(s) == s && Text.Upper(s) == s
  {
    var k: nat := if |s| == 12 then 3 else 4;
    assert RfcLetter(s[..k][0]);
    assert UpperOrDigit(s[k + 6..][2]);
    assert !IsSpace(s[0]) && !IsSpace(s[|s| - 1]);
    TrimUnchanged(s);
    forall i | 0 <= i < |s|
      ensures UpperChar(s[i]) == s[i]
    {
      if i < k {
        assert RfcLetter(s[..k][i]);
      } else if i < k + 6 {
        assert IsDigit(s[k..k + 6][i - k]);
      } else {
        assert UpperOrDigit(s[k + 6..][i - k - 6]);
      }
    }
  }

  // ---------------------------------------------------------------------------
  // CURP_REGEX

  /** `[AEIOU]`. */
  predicate Vowel(c: char) {
    c == 'A' || c == 'E' || c == 'I' || c == 'O' || c == 'U'
  }

  /** `[B-DF-HJ-NP-TV-Z]`: an upper-case consonant. */
  predicate Consonant(c: char) {
    Upper(c) && !Vowel(c)
  }

  /** `(0[1-9]|1[0-2])`. */
  predicate MonthDigits(a: char, b: char) {
    (a == '0' && '1' <= b <= '9') || (a == '1' && '0' <= b <= '2')
  }

  /** `(0[1-9]|1[0-9]|2[0-9]|3[0-1])`. */
  predicate DayDigits(a: char, b: char) {
    (a == '0' && '1' <= b <= '9') || ((a == '1' || a == '2') && IsDigit(b)) || (a == '3' && '0' <= b <= '1')
  }

  /** The birth-entity alternation `(AS|BC|…|NE)`; NE stands for born abroad. */
  predicate EntityCode(a: char, b: char) {
    (a == 'A' && b == 'S') || (a == 'B' && (b == 'C' || b == 'S')) ||
    (a == 'C' && (b == 'C' || b == 'S' || b == 'H' || b == 'L' || b == 'M')) ||
    (a == 'D' && (b == 'F' || b == 'G')) || (a == 'G' && (b == 'T' || b == 'R')) ||
    (a == 'H' && b == 'G') || (a == 'J' && b == 'C') || (a == 'M' && (b == 'C' || b == 'N' || b == 'S')) ||
    (a == 'N' && (b == 'T' || b == 'L' || b == 'E')) || (a == 'O' && b == 'C') || (a == 'P' && b == 'L') ||
    (a == 'Q' && (b == 'T' || b == 'R')) || (a == 'S' && (b == 'P' || b == 'L' || b == 'R')) ||
    (a == 'T' && (b == 'C' || b == 'S' || b == 'L')) || (a == 'V' && b == 'Z') || (a == 'Y' && b == 'N') ||
    (a == 'Z' && b == 'S')
  }

  predicate IsCurp(s: string) {
    |s| == 18 &&
    Upper(s[0]) && Vowel(s[1]) && Upper(s[2]) && Upper(s[3]) &&
    IsDigit(s[4]) && IsDigit(s[5]) &&
    MonthDigits(s[6], s[7]) && DayDigits(s[8], s[9]) &&
    (s[10] == 'H' || s[10] == 'M') &&
    EntityCode(s[11], s[12]) &&
    Consonant(s[13]) && Consonant(s[14]) && Consonant(s[15]) &&
    UpperOrDigit(s[16]) && IsDigit(s[17])
  }

  /** The value of two decimal digits. */
  function TwoDigits(a: char, b: char): int
    requires IsDigit(a) && IsDigit(b)
  {
    (a as int - '0' as int) * 10 + (b as int - '0' as int)
  }

  /**
   * An accepted CURP has 18 characters, a birth month between 1 and 12, a birth day
   * between 1 and 31 and a sex of H or M.
   */
  lemma CurpFields(s: string)
    requires IsCurp(s)
    ensures |s| == 18 && s[10] in {'H', 'M'}
    ensures IsDigit(s[6]) && IsDigit(s[7]) && 1 <= TwoDigits(s[6], s[7]) <= 12
    ensures IsDigit(s[8]) && IsDigit(s[9]) && 1 <= TwoDigits(s[8], s[9]) <= 31
  {
  }

  /** Every month/day pair the pattern accepts is read back exactly: the digit classes match the numeric ranges. */
  lemma MonthDigitsExact(a: char, b: char)
    requires IsDigit(a) && IsDigit(b)
    ensures MonthDigits(a, b) <==> 1 <= TwoDigits(a, b) <= 12
    ensures DayDigits(a, b) <==> 1 <= TwoDigits(a, b) <= 31
  {
  }

  /** The pattern checks day and month separately: it accepts a 31st of February. */
  lemma CurpAcceptsFebruary31()
    ensures IsCurp("GOMA800231HDFRRN09")
  {
  }

  /** A CURP survives the profile form's trim and upper-casing unchanged. */
  lemma CurpSurvivesUpperCasing(s: string)
    requires IsCurp(s)
    ensures Trim(s) == s && Text.Upper(s) == s
  {
    forall i | 0 <= i < |s|
      ensures UpperOrDigit(s[i])
    {
      if i == 1 {
        assert Vowel(s[1]);
      } else if 6 <= i < 10 {
        assert IsDigit(s[i]);
      } else if i == 11 || i == 12 {
        assert EntityCode(s[11], s[12]);
      }
    }
    AlphanumericSurvives(s);
  }

  /** Upper-case letters and digits pass through trimming and upper-casing unchanged. */
  lemma AlphanumericSurvives(s: string)
    requires All(s, UpperOrDigit)
    ensures Trim(s) == s && Text.Upper(s) == s
  {
    if s != [] {
      assert UpperOrDigit(s[0]) && UpperOrDigit(s[|s| - 1]);
    }
    TrimUnchanged(s);
    assert forall i :: 0 <= i < |s| ==> UpperChar(s[i]) == s[i];
  }

  // ---------------------------------------------------------------------------
  // CEDULA_REGEX: /^[0-9]{7,8}$/

  predicate IsCedula(s: string) {
    (|s| == 7 || |s| == 8) && All(s, IsDigit)
  }

  function Pow10(k: nat): nat {
    if k == 0 then 1 else 10 * Pow10(k - 1)
  }

  /** A numeral has at most `k` digits exactly when its value is below 10^k. */
  lemma {:induction false} DecimalLength(n: nat, k: nat)
    requires k >= 1
    ensures |Decimal(n)| <= k <==> n < Pow10(k)
  {
    if n >= 10 && k > 1 {
      DecimalLength(n / 10, k - 1);
      assert n / 10 < Pow10(k - 1) <==> n < 10 * Pow10(k - 1);
    } else if n >= 10 {
      assert |Decimal(n)| == |Decimal(n / 10)| + 1;
    } else if k > 1 {
      assert Pow10(k) == 10 * Pow10(k - 1);
      PowPositive(k - 1);
    }
  }

  lemma {:induction false} PowPositive(k: nat)
    ensures Pow10(k) >= 1
  {
    if k > 0 {
      PowPositive(k - 1);
    }
  }

  /** A licence number written without leading zeros is accepted exactly from 1000000 to 99999999. */
  lemma CedulaNumerals(n: nat)
    ensures IsCedula(Decimal(n)) <==> 1000000 <= n <= 99999999
  {
    DecimalLength(n, 6);
    DecimalLength(n, 8);
    assert Pow10(6) == 1000000 && Pow10(8) == 100000000;
  }
}
