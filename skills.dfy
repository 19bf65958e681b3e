/** BioSkills: the experiment planner. Every part of a plan comes from a
    fixed table; only the hypothesis text and its domain vary. */
module Skills {
  import opened Domain

  /** Names of the stored protocols (the keys of `protocols`). */
  const ProtocolNames: seq<string> := ["organoid_culture", "differentiation"]

  /** The domain-to-methods table; unlisted domains get no methods. */
  function SelectMethods(d: ResearchDomain): (r: seq<string>)
    ensures r == [] <==> d == TissueEngineering || d == CellSignaling
    ensures d == UterineOrganoid ==> "3D culture" in r
    ensures d == StemCells ==> "differentiation" in r
    ensures d == Endometrium ==> "histology" in r
  {
    match d
    case UterineOrganoid => ["3D culture", "immunofluorescence", "qPCR", "confocal microscopy"]
    case StemCells => ["differentiation", "flow cytometry", "RNA-seq", "immunostaining"]
    case Endometrium => ["tissue sectioning", "histology", "immunohistochemistry"]
    case _ => []
  }

  datatype Controls = Controls(positive: seq<string>, negative: seq<string>, internal: seq<string>)

  function DesignControls(): Controls
  {
    Controls(
      ["prior protocol results", "positive markers"],
      ["untreated cells", "unrelated markers"],
      ["housekeeping genes"])
  }

  /** Day counts per phase; `total` is stored, not computed. */
  datatype Timeline = Timeline(preparation: nat, execution: nat, analysis: nat, writing: nat, total: nat)

  /** The stored total agrees with the sum of the phases. */
  function EstimateTimeline(): (t: Timeline)
    ensures t.total == t.preparation + t.execution + t.analysis + t.writing
    ensures t.total == 34
  {
    Timeline(3, 14, 7, 10, 34)
  }

  /** A constant, whatever the statistical power beside it suggests. */
  const SampleSize: nat := 30

  const StatisticalPower: real := 0.8

  function SuccessCriteria(): seq<string>
  {
    ["P < 0.05 significance", "reproduced three times", "biological meaning shown"]
  }

  datatype Plan = Plan(
    hypothesis: string,
    domain: string,
    methods: seq<string>,
    controls: Controls,
    timeline: Timeline,
    successCriteria: seq<string>,
    statisticalPower: real,
    sampleSize: nat)

  /** A plan for the hypothesis: its methods follow its domain, and the
      schedule, controls and sample size do not depend on it. */
  function DesignExperiment(h: Hypothesis): (p: Plan)
    ensures p.hypothesis == h.statement && p.domain == Key(h.domain)
    ensures p.methods == SelectMethods(h.domain)
    ensures p.methods == [] <==> h.domain == TissueEngineering || h.domain == CellSignaling
    ensures p.controls == DesignControls() && p.statisticalPower == 0.8
    ensures p.timeline.total == p.timeline.preparation + p.timeline.execution
                                + p.timeline.analysis + p.timeline.writing == 34
    ensures p.sampleSize == 30
  {
    Plan(h.statement, Key(h.domain), SelectMethods(h.domain), DesignControls(),
         EstimateTimeline(), SuccessCriteria(), StatisticalPower, SampleSize)
  }

  /** Two hypotheses in the same domain get the same plan apart from
      their text. */
  lemma PlanDependsOnlyOnDomain(h1: Hypothesis, h2: Hypothesis)
    requires h1.domain == h2.domain
    ensures DesignExperiment(h1).(hypothesis := "") == DesignExperiment(h2).(hypothesis := "")
  {
  }
}
