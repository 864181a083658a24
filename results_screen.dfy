/**
 * The results screen's display mappings (src/components/ResultsScreen.tsx):
 * switches from urgency and diagnosis strings to icons, style tokens and
 * labels, each with a default branch, plus the gender label, the numbered
 * lists and the upper-cased diagnosis code.
 */
module ResultsScreen {
  import opened Wrappers
  import opened Types
  import GenerateDiagnosis

  datatype UrgencyIcon = AlertTriangle | Info | CheckCircle

  function GetUrgencyIcon(urgency: string): UrgencyIcon
  {
    match urgency
    case "immediate" => AlertTriangle
    case "urgent" => AlertTriangle
    case "soon" => Info
    case "routine" => CheckCircle
    case _ => Info
  }

  const DefaultUrgencyColor: string := "text-blue-600 bg-blue-100 border-blue-200"

  function GetUrgencyColor(urgency: string): string
  {
    match urgency
    case "immediate" => "text-red-700 bg-red-100 border-red-200"
    case "urgent" => "text-orange-700 bg-orange-100 border-orange-200"
    case "soon" => "text-yellow-700 bg-yellow-100 border-yellow-200"
    case "routine" => "text-green-700 bg-green-100 border-green-200"
    case _ => DefaultUrgencyColor
  }

  const DefaultBadgeColor: string := "bg-blue-600 text-white"

  function GetUrgencyBadgeColor(urgency: string): string
  {
    match urgency
    case "immediate" => "bg-red-600 text-white"
    case "urgent" => "bg-orange-600 text-white"
    case "soon" => "bg-yellow-600 text-white"
    case "routine" => "bg-green-600 text-white"
    case _ => DefaultBadgeColor
  }

  const DefaultUrgencyText: string := "Evaluación Recomendada"

  function GetUrgencyText(urgency: string): string
  {
    match urgency
    case "immediate" => "Atención Inmediata"
    case "urgent" => "Atención Urgente"
    case "soon" => "Atención Pronto"
    case "routine" => "Atención de Rutina"
    case _ => DefaultUrgencyText
  }

  const RedDiagnosis: string := "text-red-700 bg-red-50 border-red-200"
  const OrangeDiagnosis: string := "text-orange-700 bg-orange-50 border-orange-200"
  const GreenDiagnosis: string := "text-green-700 bg-green-50 border-green-200"
  const BlueDiagnosis: string := "text-blue-700 bg-blue-50 border-blue-200"

  function GetDiagnosisColor(diagnosis: string): string
  {
    match diagnosis
    case "mel" => RedDiagnosis
    case "bcc" => OrangeDiagnosis
    case "akiec" => OrangeDiagnosis
    case "nv" => GreenDiagnosis
    case "bkl" => GreenDiagnosis
    case _ => BlueDiagnosis
  }

  /** The gender ternary: anything other than 'male' or 'female' reads 'Otro'. */
  function GenderLabel(gender: string): string
  {
    if gender == "male" then "Masculino" else if gender == "female" then "Femenino" else "Otro"
  }

  /** Immediate and urgent share the warning icon, soon gets info, routine the check mark; unknown gets info. */
  lemma UrgencyIconOf(s: string)
    ensures ParseUrgency(s) == Some(Immediate) || ParseUrgency(s) == Some(Urgent) <==> GetUrgencyIcon(s) == AlertTriangle
    ensures ParseUrgency(s) == Some(Routine) <==> GetUrgencyIcon(s) == CheckCircle
    ensures ParseUrgency(s) == Some(Soon) || ParseUrgency(s).None? <==> GetUrgencyIcon(s) == Info
  {
  }

  /** The four tiers get four distinct colours, none of them the default that unknown input gets. */
  lemma UrgencyColorOf(s: string, u: Urgency, v: Urgency)
    ensures ParseUrgency(s).None? <==> GetUrgencyColor(s) == DefaultUrgencyColor
    ensures GetUrgencyColor(UrgencyCode(u)) == GetUrgencyColor(UrgencyCode(v)) ==> u == v
  {
  }

  /** The four tiers get four distinct badges, none of them the default. */
  lemma UrgencyBadgeColorOf(s: string, u: Urgency, v: Urgency)
    ensures ParseUrgency(s).None? <==> GetUrgencyBadgeColor(s) == DefaultBadgeColor
    ensures GetUrgencyBadgeColor(UrgencyCode(u)) == GetUrgencyBadgeColor(UrgencyCode(v)) ==> u == v
  {
  }

  /** The four tiers get four distinct labels; anything else reads 'Evaluación Recomendada'. */
  lemma UrgencyTextOf(s: string, u: Urgency, v: Urgency)
    ensures ParseUrgency(s).None? <==> GetUrgencyText(s) == DefaultUrgencyText
    ensures GetUrgencyText(UrgencyCode(u)) == GetUrgencyText(UrgencyCode(v)) ==> u == v
  {
  }

  /** Melanoma is red, 'bcc' and 'akiec' orange, 'nv' and 'bkl' green; 'vasc', 'df' and unknown codes blue. */
  lemma DiagnosisColorOf(s: string)
    ensures GetDiagnosisColor(s) == RedDiagnosis <==> ParseDiagnosis(s) == Some(Mel)
    ensures GetDiagnosisColor(s) == OrangeDiagnosis <==> ParseDiagnosis(s) == Some(Bcc) || ParseDiagnosis(s) == Some(Akiec)
    ensures GetDiagnosisColor(s) == GreenDiagnosis <==> ParseDiagnosis(s) == Some(Nv) || ParseDiagnosis(s) == Some(Bkl)
    ensures GetDiagnosisColor(s) == BlueDiagnosis <==>
              ParseDiagnosis(s) == Some(Vasc) || ParseDiagnosis(s) == Some(Df) || ParseDiagnosis(s).None?
  {
  }

  /** 'Masculino' exactly for male, 'Femenino' exactly for female, 'Otro' for every other string. */
  lemma GenderLabelOf(s: string)
    ensures GenderLabel(s) == "Masculino" <==> ParseGender(s) == Some(Male)
    ensures GenderLabel(s) == "Femenino" <==> ParseGender(s) == Some(Female)
    ensures GenderLabel(s) == "Otro" <==> ParseGender(s) == Some(Other) || ParseGender(s).None?
  {
  }

  /** A report built from the table never falls into any urgency default branch. */
  lemma EnrichedReportAvoidsDefaults(d: Diagnosis, confidence: real)
    ensures var u := UrgencyCode(GenerateDiagnosis.Enrich(d, confidence).urgency);
      && GetUrgencyColor(u) != DefaultUrgencyColor
      && GetUrgencyBadgeColor(u) != DefaultBadgeColor
      && GetUrgencyText(u) != DefaultUrgencyText
  {
  }

  /** One rendered list row: its 1-based number and its text. */
  datatype NumberedItem = NumberedItem(number: nat, text: string)

  /** The rows of a list numbered from `first`, in the list's order. */
  function NumberFrom(items: seq<string>, first: nat): (r: seq<NumberedItem>)
    ensures |r| == |items|
    ensures forall i :: 0 <= i < |items| ==> r[i].number == first + i && r[i].text == items[i]
  {
    if items == [] then [] else [NumberedItem(first, items[0])] + NumberFrom(items[1..], first + 1)
  }

  /** The recommendations and next-step lists as shown: numbered index + 1. */
  function Numbered(items: seq<string>): (r: seq<NumberedItem>)
    ensures |r| == |items|
    ensures forall i :: 0 <= i < |items| ==> r[i] == NumberedItem(i + 1, items[i])
  {
    NumberFrom(items, 1)
  }

  /** ASCII upper-casing of one character. */
  function UpperChar(c: char): char
  {
    if 'a' <= c <= 'z' then (c as int - 32) as char else c
  }

  predicate IsLowerAscii(s: string)
  {
    forall i :: 0 <= i < |s| ==> 'a' <= s[i] <= 'z'
  }

  /** `toUpperCase` restricted to ASCII, character by character. */
  function ToUpperAscii(s: string): (r: string)
    ensures |r| == |s|
    ensures forall i :: 0 <= i < |s| ==> r[i] == UpperChar(s[i])
  {
    if s == [] then [] else [UpperChar(s[0])] + ToUpperAscii(s[1..])
  }

  /** On lower-case words upper-casing loses nothing. */
  lemma UpperCaseInjective(x: string, y: string)
    requires IsLowerAscii(x) && IsLowerAscii(y)
    requires ToUpperAscii(x) == ToUpperAscii(y)
    ensures x == y
  {
  }

  /** The displayed codes are upper-case and still tell the seven diagnoses apart. */
  lemma DisplayedCodes(d: Diagnosis, e: Diagnosis)
    ensures ToUpperAscii(DiagnosisCode(Mel)) == "MEL"
    ensures ToUpperAscii(DiagnosisCode(d)) == ToUpperAscii(DiagnosisCode(e)) ==> d == e
  {
  }
}
