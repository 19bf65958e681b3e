/** BioValues: the ethics gate, the research-value table and the
    emotional-response table of the cartridge. */
module Values {

  /** An experiment description as the ethics gate sees it: each key that
      is present maps to the truthiness of its value. A key that is absent
      reads as falsy, as `dict.get` returning None does. */
  type Intent = map<string, bool>

  const AnimalTest := "animal_test"
  const RequiresHumanSample := "requires_human_sample"
  const Consent := "consent"

  predicate Flag(intent: Intent, key: string)
  {
    key in intent && intent[key]
  }

  /** The three messages the gate can produce. */
  datatype Verdict = AnimalTestRestricted | ConsentMissing | Approved

  datatype EthicsCheck = EthicsCheck(ok: bool, verdict: Verdict)

  /** The animal-test rule is checked before the consent rule. */
  function ValidateEthics(intent: Intent): (r: EthicsCheck)
    ensures r.ok <==> r.verdict == Approved
    ensures Flag(intent, AnimalTest) ==> r.verdict == AnimalTestRestricted
    ensures !Flag(intent, AnimalTest) ==>
              (r.verdict == ConsentMissing <==>
                 Flag(intent, RequiresHumanSample) && !Flag(intent, Consent))
    ensures r.ok <==>
              !Flag(intent, AnimalTest) &&
              (Flag(intent, RequiresHumanSample) ==> Flag(intent, Consent))
  {
    if Flag(intent, AnimalTest) then
      EthicsCheck(false, AnimalTestRestricted)
    else if Flag(intent, RequiresHumanSample) && !Flag(intent, Consent) then
      EthicsCheck(false, ConsentMissing)
    else
      EthicsCheck(true, Approved)
  }

  /** The value assigned to each listed topic. */
  function ValueTable(): map<string, real>
  {
    map[
      "uterine_organoid" := 0.95,
      "stem_cells" := 0.90,
      "endometrium" := 0.85,
      "tissue_engineering" := 0.85,
      "cell_signaling" := 0.75
    ]
  }

  const DefaultValue: real := 0.5

  /** A topic scores above the default exactly when it is listed, and every
      score lies in [0, 1]. */
  function EvaluateResearchValue(topic: string): (r: real)
    ensures DefaultValue <= r <= 1.0
    ensures topic !in ValueTable() ==> r == DefaultValue
    ensures r > DefaultValue <==> topic in ValueTable()
  {
    if topic in ValueTable() then ValueTable()[topic] else DefaultValue
  }

  datatype Emotion = Intrigued | Puzzled | Concerned | Satisfied | Celebrating | Neutral

  /** The event table of `get_emotional_response`; other events are neutral. */
  function EmotionalResponse(event: string): (e: Emotion)
    ensures e != Neutral <==>
              event in {"breakthrough", "null_result", "error", "success", "publication"}
  {
    match event
    case "breakthrough" => Intrigued
    case "null_result" => Puzzled
    case "error" => Concerned
    case "success" => Satisfied
    case "publication" => Celebrating
    case _ => Neutral
  }
}
