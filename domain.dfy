/** The research domains of the cartridge and the hypothesis record that
    the experiment planner consumes (bio_cartridge.py, ResearchDomain and
    BiologicalHypothesis). */
module Domain {

  datatype ResearchDomain =
    | UterineOrganoid
    | Endometrium
    | StemCells
    | TissueEngineering
    | CellSignaling

  /** The enum's string value, as used for table keys. */
  function Key(d: ResearchDomain): string
  {
    match d
    case UterineOrganoid => "uterine_organoid"
    case Endometrium => "endometrium"
    case StemCells => "stem_cells"
    case TissueEngineering => "tissue_engineering"
    case CellSignaling => "cell_signaling"
  }

  /** Python's float confidence is kept as a real number. */
  datatype Hypothesis = Hypothesis(
    statement: string,
    domain: ResearchDomain,
    evidence: seq<string>,
    confidence: real,
    experimentalDesign: string)
}
