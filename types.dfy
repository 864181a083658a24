/**
 * The shared record types of the application (src/types/index.ts).
 * TypeScript string-literal unions become datatypes; each union keeps its
 * wire spelling through a Code function and a partial Parse function.
 */
module Types {
  import opened Wrappers

  datatype Gender = Male | Female | Other

  /** The seven lesion classes the classifier can report. */
  datatype Diagnosis = Nv | Mel | Bkl | Bcc | Akiec | Vasc | Df

  /** Urgency tiers attached to a diagnosis. */
  datatype Urgency = Routine | Soon | Urgent | Immediate

  function GenderCode(g: Gender): string
  {
    match g
    case Male => "male"
    case Female => "female"
    case Other => "other"
  }

  function DiagnosisCode(d: Diagnosis): string
  {
    match d
    case Nv => "nv"
    case Mel => "mel"
    case Bkl => "bkl"
    case Bcc => "bcc"
    case Akiec => "akiec"
    case Vasc => "vasc"
    case Df => "df"
  }

  function UrgencyCode(u: Urgency): string
  {
    match u
    case Routine => "routine"
    case Soon => "soon"
    case Urgent => "urgent"
    case Immediate => "immediate"
  }

  /** A string belongs to the diagnosis union iff it is the code of exactly that diagnosis. */
  function ParseDiagnosis(s: string): (r: Option<Diagnosis>)
    ensures forall d :: r == Some(d) <==> DiagnosisCode(d) == s
  {
    if s == "nv" then Some(Nv)
    else if s == "mel" then Some(Mel)
    else if s == "bkl" then Some(Bkl)
    else if s == "bcc" then Some(Bcc)
    else if s == "akiec" then Some(Akiec)
    else if s == "vasc" then Some(Vasc)
    else if s == "df" then Some(Df)
    else None
  }

  /** A string belongs to the urgency union iff it is the code of exactly that tier. */
  function ParseUrgency(s: string): (r: Option<Urgency>)
    ensures forall u :: r == Some(u) <==> UrgencyCode(u) == s
  {
    if s == "routine" then Some(Routine)
    else if s == "soon" then Some(Soon)
    else if s == "urgent" then Some(Urgent)
    else if s == "immediate" then Some(Immediate)
    else None
  }

  /** A string belongs to the gender union iff it is the code of exactly that gender. */
  function ParseGender(s: string): (r: Option<Gender>)
    ensures forall g :: r == Some(g) <==> GenderCode(g) == s
  {
    if s == "male" then Some(Male)
    else if s == "female" then Some(Female)
    else if s == "other" then Some(Other)
    else None
  }

  /** An uploaded image file; only its presence matters to the logic. */
  datatype File = File(name: string, content: seq<bv8>)

  /**
   * Patient data as the form holds it. `image` is null until a file is chosen;
   * `imageUrl` and `lesionLabel` are kept by the form although the declared
   * interface omits them.
   */
  datatype UserData = UserData(
    firstName: string,
    lastName: string,
    age: int,
    gender: Gender,
    image: Option<File>,
    imageUrl: string,
    lesionArea: string,
    lesionLabel: string)

  /** The report shown on the results screen; every field is mandatory. */
  datatype SkinAnalysisResult = SkinAnalysisResult(
    diagnosis: Diagnosis,
    confidence: real,
    findings: string,
    recommendations: seq<string>,
    urgency: Urgency,
    nextSteps: seq<string>,
    diagnosisName: string,
    description: string)

  /** Distinct diagnoses have distinct codes, so a code names exactly one diagnosis. */
  lemma DiagnosisCodeInjective(d: Diagnosis, e: Diagnosis)
    ensures DiagnosisCode(d) == DiagnosisCode(e) ==> d == e
  {
  }
}
