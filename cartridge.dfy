/** BioCartridge: the activatable session. It holds an on/off flag with a
    mode that mirrors it, routes queries by keyword, and keeps an
    append-only ledger of started research projects. */
module Cartridge {
  import opened Wrappers
  import opened Text
  import opened Domain
  import opened Memory
  import opened Values
  import opened Skills

  datatype Mode = Standby | Active

  function ModeOf(active: bool): Mode
  {
    if active then Active else Standby
  }

  // ---------------------------------------------------------------------
  // Project ids: "BIO_" followed by the ledger position, at least 3 digits

  const IdPrefix := "BIO_"
  const IdWidth: nat := 3

  function ProjectId(n: nat): (id: string)
    ensures |id| >= 7 && id[..4] == IdPrefix
    ensures forall i :: 4 <= i < |id| ==> IsDigit(id[i])
    ensures n < 1000 ==> |id| == 7
    ensures n >= 100 ==> id[4] != '0'
  {
    DigitsOfSmall(n);
    DigitsOfLarge(n);
    DigitsLead(n);
    IdPrefix + ZeroPadded(n, IdWidth)
  }

  /** The number an id carries. */
  function IdNumber(id: string): nat
    requires |id| >= 4 && forall i :: 4 <= i < |id| ==> IsDigit(id[i])
  {
    DecimalValue(id[4..])
  }

  /** Reading an id back gives its ledger position, so ids are distinct
      and their numbers increase with the position. */
  lemma ProjectIdRoundTrip(n: nat)
    ensures IdNumber(ProjectId(n)) == n
  {
    assert ProjectId(n)[4..] == ZeroPadded(n, IdWidth);
    ZeroPaddedRoundTrip(n, IdWidth);
  }

  lemma ProjectIdInjective(m: nat, n: nat)
    requires ProjectId(m) == ProjectId(n)
    ensures m == n
  {
    ProjectIdRoundTrip(m);
    ProjectIdRoundTrip(n);
  }

  /** The first two ids of a fresh ledger. */
  lemma FirstIds()
    ensures ProjectId(1) == "BIO_001" && ProjectId(2) == "BIO_002"
  {
  }

  // ---------------------------------------------------------------------
  // The ledger

  datatype ProjectStatus = Initiated

  datatype Project = Project(
    id: string,
    hypothesis: string,
    design: Plan,
    status: ProjectStatus,
    ethics: Verdict)

  /** Entry i carries id number i + 1 and was approved. */
  ghost predicate LedgerWellFormed(ledger: seq<Project>)
  {
    forall i :: 0 <= i < |ledger| ==>
      ledger[i].id == ProjectId(i + 1) && ledger[i].ethics == Approved &&
      ledger[i].status == Initiated
  }

  /** In a well-formed ledger ids are distinct and strictly increase. */
  lemma LedgerIdsIncrease(ledger: seq<Project>, i: nat, j: nat)
    requires LedgerWellFormed(ledger)
    requires i < j < |ledger|
    ensures IdNumber(ledger[i].id) < IdNumber(ledger[j].id)
    ensures ledger[i].id != ledger[j].id
  {
    ProjectIdRoundTrip(i + 1);
    ProjectIdRoundTrip(j + 1);
  }

  // ---------------------------------------------------------------------
  // Query routing

  /** Keyword routing; "organoid" is tested before "stem", and the
      endometrium is the fallback. */
  function Classify(query: string): (d: ResearchDomain)
    ensures d == UterineOrganoid <==> Contains(Lower(query), "organoid")
    ensures d == StemCells <==>
              !Contains(Lower(query), "organoid") && Contains(Lower(query), "stem")
    ensures d == Endometrium <==>
              !Contains(Lower(query), "organoid") && !Contains(Lower(query), "stem")
  {
    var q := Lower(query);
    if Contains(q, "organoid") then UterineOrganoid
    else if Contains(q, "stem") then StemCells
    else Endometrium
  }

  /** A query naming both keywords goes to the organoid domain, wherever
      and in whatever case the keywords occur. */
  lemma OrganoidWinsOverStem(query: string)
    requires Contains(Lower(query), "organoid") && Contains(Lower(query), "stem")
    ensures Classify(query) == UterineOrganoid
  {
  }

  /** Routing ignores letter case: a query and its lower-cased form go to
      the same domain. */
  lemma ClassifyIgnoresCase(query: string)
    ensures Classify(Lower(query)) == Classify(query)
  {
    LowerIdempotent(query);
  }

  datatype QueryResult =
    | Inactive
    | Processed(
        query: string,
        domain: ResearchDomain,
        knowledge: Option<Sheet>,
        researchValue: real,
        emotion: Emotion,
        mode: Mode)

  datatype StartResult =
    | NotActive
    | EthicsRejected(verdict: Verdict)
    | Started(project: Project)

  datatype ActivationReport = ActivationReport(
    domain: string,
    confidence: real,
    availableMethods: seq<string>)

  datatype Status = Status(active: bool, mode: Mode, projects: nat, confidence: real)

  /** The intent the cartridge submits for every project, whatever the
      hypothesis: a human sample with consent and no animal test. It
      passes the ethics gate. */
  function StartIntent(): (intent: Intent)
    ensures ValidateEthics(intent).ok
    ensures Flag(intent, RequiresHumanSample) && Flag(intent, Consent)
  {
    map[AnimalTest := false, RequiresHumanSample := true, Consent := true]
  }

  class BioCartridge {
    const memory: BioMemory
    var active: bool
    var mode: Mode
    var projects: seq<Project>

    /** The mode mirrors the flag and the ledger numbers its entries. */
    ghost predicate Valid()
      reads this
    {
      mode == ModeOf(active) && LedgerWellFormed(projects)
    }

    constructor (snapshot: Option<ResearchData>)
      ensures Valid() && !active && mode == Standby && projects == []
      ensures fresh(memory)
      ensures memory.researchData == if snapshot.Some? then snapshot.value else map[]
    {
      memory := new BioMemory(snapshot);
      active := false;
      mode := Standby;
      projects := [];
    }

    /** Whatever the prior state, the session is active afterwards. */
    method Activate() returns (report: ActivationReport)
      requires Valid()
      modifies this
      ensures Valid() && active && mode == Active
      ensures projects == old(projects)
      ensures report.availableMethods == ProtocolNames
    {
      active := true;
      mode := Active;
      report := ActivationReport("biology", 0.85, ProtocolNames);
    }

    method Deactivate()
      requires Valid()
      modifies this
      ensures Valid() && !active && mode == Standby
      ensures projects == old(projects)
    {
      active := false;
      mode := Standby;
    }

    /** An inactive session answers with the inactive result; an active
        one routes the query and reports the domain's sheet and value. */
    function ProcessQuery(query: string): (r: QueryResult)
      reads this
      requires Valid()
      ensures !active <==> r == Inactive
      ensures r.Processed? ==>
                r.query == query && r.mode == Active && r.emotion == Neutral &&
                r.domain == Classify(query) &&
                (r.domain == Endometrium <==> r.researchValue == DefaultValue) &&
                (r.knowledge.Some? <==> r.domain != Endometrium)
      ensures r.Processed? && r.domain != Endometrium ==>
                r.knowledge == RecallKnowledge(Key(r.domain)) &&
                r.researchValue == EvaluateResearchValue(Key(r.domain))
    {
      if !active then Inactive
      else
        var d := Classify(query);
        if d == UterineOrganoid then
          Processed(query, d, RecallKnowledge("uterine_organoid"),
                    EvaluateResearchValue("uterine_organoid"), EmotionalResponse("interest"), mode)
        else if d == StemCells then
          Processed(query, d, RecallKnowledge("stem_cells"),
                    EvaluateResearchValue("stem_cells"), EmotionalResponse("interest"), mode)
        else
          Processed(query, Endometrium, None, DefaultValue, EmotionalResponse("interest"), mode)
    }

    /** An inactive session refuses and keeps its ledger; an active one
        appends exactly one approved project, numbered after the last. */
    method StartResearchProject(h: Hypothesis) returns (r: StartResult)
      requires Valid()
      modifies this
      ensures Valid() && active == old(active) && mode == old(mode)
      ensures !old(active) ==> r == NotActive && projects == old(projects)
      ensures old(active) ==>
                r.Started? && projects == old(projects) + [r.project] &&
                r.project.id == ProjectId(|old(projects)| + 1) &&
                r.project.hypothesis == h.statement &&
                r.project.design == DesignExperiment(h)
    {
      if !active {
        return NotActive;
      }
      var check := ValidateEthics(StartIntent());
      if !check.ok {
        r := EthicsRejected(check.verdict);
      } else {
        var design := DesignExperiment(h);
        var project := Project(ProjectId(|projects| + 1), h.statement, design, Initiated, Approved);
        projects := projects + [project];
        r := Started(project);
      }
    }

    /** The status view; its mode always agrees with its flag. */
    function GetStatus(): (s: Status)
      reads this
      requires Valid()
      ensures s.mode == ModeOf(s.active) && s.active == active
      ensures s.projects == |projects|
    {
      Status(active, mode, |projects|, 0.85)
    }
  }

  /** A scenario over the session methods: a query refused before
      activation, then two projects numbered 001 and 002, and the same
      state after deactivating and activating again. */
  method SessionScenario(h: Hypothesis) returns (before: QueryResult, first: StartResult,
                                                second: StartResult, status: Status)
    ensures before == Inactive
    ensures first.Started? && first.project.id == "BIO_001"
    ensures second.Started? && second.project.id == "BIO_002"
    ensures status == Status(true, Active, 2, 0.85)
  {
    var c := new BioCartridge(None);
    before := c.ProcessQuery("organoid");
    var _ := c.Activate();
    first := c.StartResearchProject(h);
    second := c.StartResearchProject(h);
    c.Deactivate();
    var _ := c.Activate();
    status := c.GetStatus();
    FirstIds();
  }
}
