/** BioTools: the literature-search adapter, which only builds the query. */
module Tools {
  import opened Text

  datatype SearchStatus = Ready

  datatype LiteratureQuery = LiteratureQuery(
    query: string,
    database: string,
    status: SearchStatus,
    estimatedResults: nat)

  const AndSeparator := " AND "

  /** The keywords joined by " AND "; nothing is searched yet. */
  function SearchLiterature(keywords: seq<string>): (r: LiteratureQuery)
    ensures r.database == "PubMed" && r.status == Ready && r.estimatedResults == 0
    ensures keywords == [] ==> r.query == ""
    ensures |keywords| == 1 ==> r.query == keywords[0]
  {
    LiteratureQuery(Join(keywords, AndSeparator), "PubMed", Ready, 0)
  }

  /** Every keyword occurs in the query. */
  lemma QueryMentionsEveryKeyword(keywords: seq<string>, i: nat)
    requires i < |keywords|
    ensures Contains(SearchLiterature(keywords).query, keywords[i])
  {
    JoinContains(keywords, AndSeparator, i);
  }

  /** One more keyword extends the query by " AND " and that keyword. */
  lemma QueryExtends(keywords: seq<string>, k: string)
    requires keywords != []
    ensures SearchLiterature(keywords + [k]).query == SearchLiterature(keywords).query + " AND " + k
  {
    JoinAppend(keywords, k, AndSeparator);
  }
}
