/**
 * The diagnosis enrichment table and the join that turns a classification
 * (a diagnosis code and a confidence) into a full report
 * (src/utils/generateDiagnosis.ts).
 */
module GenerateDiagnosis {
  import opened Wrappers
  import opened Types

  /** The fixed editorial bundle stored per diagnosis code. */
  datatype Entry = Entry(
    name: string,
    description: string,
    urgency: Urgency,
    findings: string,
    recommendations: seq<string>,
    nextSteps: seq<string>)

  const NvEntry: Entry := Entry(
    "Nevus Melanocítico",
    "Lesión pigmentada benigna común, también conocida como lunar.",
    Routine,
    "Se observan características compatibles con un nevus melanocítico benigno. La lesión presenta patrones de pigmentación regulares y bordes bien definidos, consistentes con una lesión benigna.",
    [ "Autoexamen mensual de la piel",
      "Protección solar diaria con SPF 30+",
      "Revisión dermatológica anual de rutina",
      "Monitoreo de cambios en tamaño, color o forma",
      "Fotografía para seguimiento a largo plazo" ],
    [ "Consulta dermatológica de rutina en 12 meses",
      "Autoexamen regular de toda la superficie corporal",
      "Educación sobre signos de alarma (regla ABCDE)" ])

  const MelEntry: Entry := Entry(
    "Melanoma",
    "Tumor maligno de melanocitos que requiere atención médica inmediata.",
    Immediate,
    "Se detectan características altamente sugestivas de melanoma maligno. La lesión presenta asimetría, bordes irregulares, variación de color y/o diámetro aumentado, patrones que requieren evaluación médica urgente.",
    [ "CONSULTA DERMATOLÓGICA INMEDIATA",
      "No manipular ni traumatizar la lesión",
      "Evitar exposición solar directa",
      "Documentar cambios con fotografías",
      "Preparar historial médico completo",
      "Considerar segunda opinión oncológica" ],
    [ "CONSULTA DERMATOLÓGICA URGENTE (24-48 horas)",
      "Biopsia para confirmación histológica",
      "Evaluación de extensión y estadificación",
      "Derivación a oncología dermatológica" ])

  const BklEntry: Entry := Entry(
    "Queratosis Seborreica",
    "Lesión benigna común relacionada con el envejecimiento cutáneo.",
    Routine,
    "Las características observadas son consistentes con queratosis seborreica, una lesión benigna común asociada al envejecimiento. Presenta superficie verrugosa y pigmentación característica.",
    [ "Revisión dermatológica anual",
      "Protección solar para prevenir nuevas lesiones",
      "Monitoreo de cambios significativos",
      "Considerar remoción si hay irritación frecuente",
      "Mantener la piel hidratada" ],
    [ "Consulta dermatológica de rutina",
      "Evaluación para posible remoción cosmética",
      "Seguimiento anual de lesiones similares" ])

  const BccEntry: Entry := Entry(
    "Carcinoma Basocelular",
    "Cáncer de piel no melanoma, localmente invasivo pero raramente metastásico.",
    Urgent,
    "Se identifican características compatibles con carcinoma basocelular. Aunque es un cáncer de crecimiento lento y raramente metastásico, requiere tratamiento oportuno para prevenir invasión local.",
    [ "Consulta dermatológica urgente en 1-2 semanas",
      "Evitar exposición solar en el área afectada",
      "No aplicar productos irritantes",
      "Proteger la lesión de traumatismos",
      "Documentar cualquier cambio",
      "Revisar otras áreas expuestas al sol" ],
    [ "Consulta dermatológica en 1-2 semanas",
      "Biopsia para confirmación diagnóstica",
      "Planificación de tratamiento (cirugía/otros)",
      "Evaluación de factores de riesgo" ])

  const AkiecEntry: Entry := Entry(
    "Queratosis Actínica / Carcinoma Escamocelular in situ",
    "Lesión precancerosa o cáncer temprano relacionado con daño solar.",
    Urgent,
    "Las características sugieren queratosis actínica o carcinoma escamocelular in situ. Estas lesiones representan daño solar acumulativo y tienen potencial de progresión maligna.",
    [ "Consulta dermatológica urgente",
      "Protección solar estricta (SPF 50+)",
      "Evitar exposición solar entre 10 AM - 4 PM",
      "Usar ropa protectora y sombreros",
      "Revisar toda la superficie corporal",
      "Considerar tratamiento preventivo" ],
    [ "Consulta dermatológica en 1-2 semanas",
      "Biopsia para estadificación precisa",
      "Tratamiento según extensión (criocirugía, tópicos)",
      "Seguimiento estrecho post-tratamiento" ])

  const VascEntry: Entry := Entry(
    "Lesión Vascular",
    "Lesión de origen vascular, generalmente benigna.",
    Routine,
    "Se observan características compatibles con una lesión vascular benigna. Estas lesiones incluyen angiomas, hemangiomas o malformaciones vasculares menores.",
    [ "Consulta dermatológica de rutina",
      "Monitoreo de cambios en tamaño o color",
      "Protección contra traumatismos",
      "Considerar tratamiento cosmético si es necesario",
      "Mantener registro fotográfico" ],
    [ "Consulta dermatológica en 3-6 meses",
      "Evaluación para tratamiento cosmético",
      "Seguimiento según evolución" ])

  const DfEntry: Entry := Entry(
    "Dermatofibroma",
    "Nódulo fibroso benigno común en extremidades.",
    Routine,
    "Las características son consistentes con dermatofibroma, una lesión fibrosa benigna común. Típicamente se presenta como un nódulo firme, bien delimitado.",
    [ "Consulta dermatológica de rutina",
      "Monitoreo de cambios significativos",
      "Evitar traumatismos repetidos",
      "Considerar remoción si hay molestias",
      "Protección solar general" ],
    [ "Consulta dermatológica en 6-12 meses",
      "Evaluación para remoción si hay síntomas",
      "Seguimiento según preferencia del paciente" ])

  /** The `diagnosisInfo` object literal, keyed by the diagnosis code strings. */
  const DiagnosisInfo: map<string, Entry> := map[
    "nv" := NvEntry,
    "mel" := MelEntry,
    "bkl" := BklEntry,
    "bcc" := BccEntry,
    "akiec" := AkiecEntry,
    "vasc" := VascEntry,
    "df" := DfEntry
  ]

  /** The table's keys are exactly the seven diagnosis codes. */
  lemma TableKeysAreDiagnosisCodes()
    ensures |DiagnosisInfo| == 7
    ensures forall k :: k in DiagnosisInfo <==> ParseDiagnosis(k).Some?
  {
    assert DiagnosisInfo.Keys == {"nv", "mel", "bkl", "bcc", "akiec", "vasc", "df"};
  }

  /** Indexing the object by one of its own keys; `None` for any string that is not one of them. */
  function LookupCode(key: string): (r: Option<Entry>)
    ensures r.Some? <==> ParseDiagnosis(key).Some?
    ensures r.Some? ==> r.value == DiagnosisInfo[key]
  {
    TableKeysAreDiagnosisCodes();
    if key in DiagnosisInfo then Some(DiagnosisInfo[key]) else None
  }

  /** Lookup by diagnosis: total, because every diagnosis code is a key. */
  function Lookup(d: Diagnosis): (e: Entry)
    ensures LookupCode(DiagnosisCode(d)) == Some(e)
  {
    TableKeysAreDiagnosisCodes();
    DiagnosisInfo[DiagnosisCode(d)]
  }

  /** Urgency per entry: 'mel' alone is immediate, 'bcc' and 'akiec' are urgent, the rest routine, none 'soon'. */
  lemma UrgencyOfEntries(d: Diagnosis)
    ensures Lookup(d).urgency == Immediate <==> d == Mel
    ensures Lookup(d).urgency == Urgent <==> d == Bcc || d == Akiec
    ensures Lookup(d).urgency == Routine <==> d == Nv || d == Bkl || d == Vasc || d == Df
    ensures Lookup(d).urgency != Soon
  {
  }

  /**
   * Every entry lists at least five recommendations and three next steps; the
   * three non-routine entries list exactly six and four, the others five and three.
   */
  lemma ListSizesOfEntries(d: Diagnosis)
    ensures |Lookup(d).recommendations| >= 5 && |Lookup(d).nextSteps| >= 3
    ensures d == Mel || d == Bcc || d == Akiec ==>
              |Lookup(d).recommendations| == 6 && |Lookup(d).nextSteps| == 4
    ensures d == Nv || d == Bkl || d == Vasc || d == Df ==>
              |Lookup(d).recommendations| == 5 && |Lookup(d).nextSteps| == 3
  {
  }

  /** No entry has an empty name, description or findings text. */
  lemma EntriesHaveText(d: Diagnosis)
    ensures Lookup(d).name != "" && Lookup(d).description != "" && Lookup(d).findings != ""
  {
  }

  /** The join: the classification's code and confidence plus the bundle's fields, flattened. */
  function BuildResult(d: Diagnosis, confidence: real, e: Entry): (r: SkinAnalysisResult)
    ensures r.diagnosis == d && r.confidence == confidence && EntryOf(r) == e
  {
    SkinAnalysisResult(
      diagnosis := d,
      confidence := confidence,
      findings := e.findings,
      recommendations := e.recommendations,
      urgency := e.urgency,
      nextSteps := e.nextSteps,
      diagnosisName := e.name,
      description := e.description)
  }

  /** The bundle a report carries, read back from the report's fields. */
  function EntryOf(r: SkinAnalysisResult): Entry
  {
    Entry(r.diagnosisName, r.description, r.urgency, r.findings, r.recommendations, r.nextSteps)
  }

  /** The join loses nothing: code, confidence and the whole bundle (lists in order) are recovered. */
  lemma BuildResultRoundTrip(d: Diagnosis, confidence: real, e: Entry)
    ensures BuildResult(d, confidence, e).diagnosis == d
    ensures BuildResult(d, confidence, e).confidence == confidence
    ensures EntryOf(BuildResult(d, confidence, e)) == e
  {
  }

  /** The join adds nothing: every report is the join of its own code, confidence and bundle. */
  lemma ReportIsBuiltFromItsParts(r: SkinAnalysisResult)
    ensures BuildResult(r.diagnosis, r.confidence, EntryOf(r)) == r
  {
  }

  /** Enrichment of a classification: join with the table entry of its code. */
  function Enrich(d: Diagnosis, confidence: real): (r: SkinAnalysisResult)
    ensures r.diagnosis == d && r.confidence == confidence
    ensures LookupCode(DiagnosisCode(r.diagnosis)) == Some(EntryOf(r))
  {
    BuildResult(d, confidence, Lookup(d))
  }

  /** A melanoma classification is reported as immediate, with the table's six recommendations in order. */
  lemma MelanomaReport()
    ensures Enrich(Mel, 0.81).urgency == Immediate
    ensures Enrich(Mel, 0.81).recommendations == [
      "CONSULTA DERMATOLÓGICA INMEDIATA",
      "No manipular ni traumatizar la lesión",
      "Evitar exposición solar directa",
      "Documentar cambios con fotografías",
      "Preparar historial médico completo",
      "Considerar segunda opinión oncológica" ]
  {
  }

  // The commented-out generator's confidence computation.

  /** The per-diagnosis base confidence; the initial 75 is overwritten for every code. */
  function BaseConfidence(d: Diagnosis): (c: int)
    ensures 78 <= c <= 90
  {
    match d
    case Mel => 85
    case Nv => 90
    case Bkl => 88
    case Bcc => 82
    case Akiec => 78
    case Vasc => 85
    case Df => 87
  }

  /** Base confidence plus the image bonus. */
  function BoostedConfidence(d: Diagnosis, hasImage: bool): (c: int)
    ensures 78 <= c <= 98
    ensures !hasImage ==> c <= 90
  {
    BaseConfidence(d) + if hasImage then 8 else 0
  }

  /** JavaScript's Math.round: halves round toward positive infinity. */
  function Round(x: real): (n: int)
    ensures n as real - 0.5 <= x < n as real + 0.5
  {
    (x + 0.5).Floor
  }

  /** The final confidence: the rounded, varied value clamped into [70, 95]. */
  function Confidence(d: Diagnosis, hasImage: bool, variation: real): (c: int)
    ensures 70 <= c <= 95
    ensures 70 <= Round(BoostedConfidence(d, hasImage) as real + variation) <= 95 ==>
              c == Round(BoostedConfidence(d, hasImage) as real + variation)
    ensures Round(BoostedConfidence(d, hasImage) as real + variation) > 95 ==> c == 95
    ensures Round(BoostedConfidence(d, hasImage) as real + variation) < 70 ==> c == 70
  {
    var v := Round(BoostedConfidence(d, hasImage) as real + variation);
    if v > 95 then 95 else if v < 70 then 70 else v
  }

  /** An image adds exactly 8 before rounding and clamping, so it never lowers the confidence. */
  lemma ImageAddsEight(d: Diagnosis, variation: real)
    ensures BoostedConfidence(d, true) == BoostedConfidence(d, false) + 8
    ensures Confidence(d, true, variation) == Confidence(d, false, variation + 8.0)
    ensures Confidence(d, true, variation) >= Confidence(d, false, variation)
  {
  }

  /**
   * The generator with its random choices as parameters: the selected code and
   * the variation (drawn from [-5, 5) in the source).
   */
  function GenerateSkinAnalysis(user: UserData, selected: Diagnosis, variation: real): (r: SkinAnalysisResult)
    ensures r.diagnosis == selected && EntryOf(r) == Lookup(selected)
    ensures r.confidence == Confidence(selected, user.image.Some?, variation) as real
    ensures 70.0 <= r.confidence <= 95.0
  {
    BuildResult(selected, Confidence(selected, user.image.Some?, variation) as real, Lookup(selected))
  }
}
