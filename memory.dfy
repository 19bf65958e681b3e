/** BioMemory: the static knowledge base and the research-result store.
    The store is a dictionary from domain key to a list of result records;
    results are only ever appended. */
module Memory {
  import opened Wrappers
  import opened Text
  import opened Domain

  /** A stored result record (a Python dict of opaque fields). */
  type Record = map<string, string>

  type ResearchData = map<string, seq<Record>>

  /** What the knowledge base keeps per domain that the model needs. */
  datatype Sheet = Sheet(researchLevel: real, markers: seq<string>)

  function KnowledgeBase(): map<string, Sheet>
  {
    map[
      "uterine_organoid" := Sheet(0.85, ["E-cadherin", "Vimentin", "Cytokeratin-7"]),
      "stem_cells" := Sheet(0.85, ["OCT4", "NANOG", "SOX2"]),
      "endometrium" := Sheet(0.8, [])
    ]
  }

  /** The sheet for a known topic, nothing (`{}`) otherwise; every known
      research level lies in [0, 1]. */
  function RecallKnowledge(topic: string): (r: Option<Sheet>)
    ensures r.Some? <==> topic in {"uterine_organoid", "stem_cells", "endometrium"}
    ensures r.Some? ==> 0.0 <= r.value.researchLevel <= 1.0
  {
    if topic in KnowledgeBase() then Some(KnowledgeBase()[topic]) else None
  }

  /** The results stored under `domain`, empty when there are none. */
  function Stored(data: ResearchData, domain: string): seq<Record>
  {
    if domain in data then data[domain] else []
  }

  /** `research_data.get(query, [])[:limit]`: the first `limit` results
      stored under exactly `query`. */
  function Papers(data: ResearchData, query: string, limit: nat): (r: seq<Record>)
    ensures query !in data ==> r == []
    ensures |r| == Min(limit, |Stored(data, query)|)
    ensures r == Stored(data, query)[..|r|]
  {
    Take(Stored(data, query), limit)
  }

  /** The store after `result` is appended under `domain`. */
  function WithResult(data: ResearchData, domain: string, result: Record): (d: ResearchData)
    ensures domain in d && d[domain] == Stored(data, domain) + [result]
    ensures d.Keys == data.Keys + {domain}
    ensures forall k :: k in data && k != domain ==> d[k] == data[k]
  {
    data[domain := Stored(data, domain) + [result]]
  }

  /** After an append, a search under that domain with a large enough
      limit returns the earlier results followed by the new one. */
  lemma SearchAfterAdd(data: ResearchData, domain: string, result: Record, limit: nat)
    requires limit > |Stored(data, domain)|
    ensures Papers(WithResult(data, domain, result), domain, limit) == Stored(data, domain) + [result]
  {
  }

  /** An append never changes what a search under another key returns. */
  lemma SearchElsewhereUnchanged(data: ResearchData, domain: string, result: Record,
                                 query: string, limit: nat)
    requires query != domain
    ensures Papers(WithResult(data, domain, result), query, limit) == Papers(data, query, limit)
  {
  }

  /** Appends accumulate in order: the results stored under a domain are
      exactly the ones appended to it, oldest first. */
  function AppendAll(data: ResearchData, domain: string, results: seq<Record>): ResearchData
    decreases |results|
  {
    if results == [] then data
    else AppendAll(WithResult(data, domain, results[0]), domain, results[1..])
  }

  lemma {:induction false} AppendAllStores(data: ResearchData, domain: string, results: seq<Record>)
    ensures Stored(AppendAll(data, domain, results), domain) == Stored(data, domain) + results
    decreases |results|
  {
    if results != [] {
      AppendAllStores(WithResult(data, domain, results[0]), domain, results[1..]);
      assert [results[0]] + results[1..] == results;
    }
  }

  datatype DomainContext = DomainContext(
    domain: string,
    knowledge: Option<Sheet>,
    recentData: seq<Record>,
    confidence: real)

  /** The context for a domain: its sheet and all results stored under it. */
  function ContextOf(data: ResearchData, d: ResearchDomain): (c: DomainContext)
    ensures c.domain == Key(d)
    ensures c.knowledge == RecallKnowledge(Key(d))
    ensures c.knowledge.Some? <==> d in {UterineOrganoid, StemCells, Endometrium}
    ensures c.recentData == Papers(data, Key(d), |Stored(data, Key(d))|)
    ensures c.confidence == 0.85
  {
    DomainContext(Key(d), RecallKnowledge(Key(d)), Stored(data, Key(d)), 0.85)
  }

  class BioMemory {
    var researchData: ResearchData

    /** `snapshot` is what loading the persisted store produced: nothing
        when the files are absent or unreadable, and the store is then empty. */
    constructor (snapshot: Option<ResearchData>)
      ensures researchData == if snapshot.Some? then snapshot.value else map[]
    {
      researchData := if snapshot.Some? then snapshot.value else map[];
    }

    function SearchPapers(query: string, limit: nat): seq<Record>
      reads this
    {
      Papers(researchData, query, limit)
    }

    method AddResearchResult(domain: string, result: Record)
      modifies this
      ensures researchData == WithResult(old(researchData), domain, result)
    {
      if domain !in researchData {
        researchData := researchData[domain := []];
      }
      researchData := researchData[domain := researchData[domain] + [result]];
    }

    function GetContext(d: ResearchDomain): DomainContext
      reads this
    {
      ContextOf(researchData, d)
    }
  }
}
