# SHawn-BIO: the bio cartridge and the research engine's snippet merge, in Dafny

This project models two parts of the SHawn-BIO research assistant.

**The bio cartridge** (`bio_cartridge.py`) is a session object. Its `active` flag and its `mode` are switched by `activate` and `deactivate`. It routes a query to a research domain by keyword, testing "organoid" before "stem". It keeps an append-only ledger of research projects whose ids are `BIO_001`, `BIO_002`, and so on. Around it sit small fixed tables:
- the ethics gate, where the animal-test rule is checked before the consent rule;
- research values, with 0.5 as the default;
- the domain-to-methods table, with a constant timeline and sample size;
- the knowledge base;
- the literature-query builder;
- a result store: a dictionary of lists that results are appended to.

**`ResearchEngine.meta_analyze`** (`01-Analysis/research_engine.py`) collects snippets. It takes the vector-search hits first, then the matching Markdown files of `01-Analysis`, `02-Literature` and `03-Vault`. Each snippet keeps the first 1000 characters of its document. The collection follows a cap of 10 that is applied per directory. If nothing was found it returns a fixed message. Otherwise it joins the first 8 snippets with blank lines, fills the analysis or the debate template, and hands the prompt and the task type (`gemini` or `debate`) to the reasoning component.

Files:
- `cartridge.dfy`: the `BioCartridge` class, the query router, project ids and the ledger invariant.
- `memory.dfy`: the knowledge base, the result store (a `BioMemory` class) and its pure specification on values.
- `values.dfy`, `skills.dfy`, `tools.dfy`: the ethics and value tables, the experiment planner and the literature query.
- `domain.dfy`: the research domains and the hypothesis record.
- `retrieval.dfy`: `meta_analyze`.
- `text.dfy` and `wrappers.dfy`: shared string helpers and `Option`.

How `meta_analyze` is modelled:
- The imperative collection loop is the method `CollectSnippets`. It is proved equal to the recursive functions `ScanFiles`, `ScanWalk` and `ScanDirs`, which follow the three nested loops and their `break`s.
- Those functions are in turn proved equal to an independent description, `Contribution`. Below the cap, a directory adds its matches in walk order, up to the cap. At or above the cap, it adds at most the first match of its top-level folder.
- The bounds, the "no results" condition and completeness below the cap all follow from that description.

Inputs that stand in for I/O:
- the vector search is a `RagOutcome` value (`SearchFailed` or the list of hits);
- each directory is the list of file lists its walk visits, with the top-level folder first; a directory that does not exist is absent from the map;
- an unreadable file is `Unreadable`;
- the reasoning component is a function parameter `think`, and the result records the call that was made (`NoCall` or `Call(prompt, taskType)`).

Three behaviours of the code worth noting:
- The cap of 10 is not global. The loop over the three directories has no `break`. So once 10 snippets are collected, each later directory still scans its top-level folder and can add one more. The collection can therefore hold up to `max(hits, 9) + 3` snippets (`CollectedBound`), and 12 is reachable (`CapCanBeExceeded`).
- `start_research_project` on an inactive session returns only an error. It carries no `status: "inactive"` field (`NotActive` in the model). Only `process_query` reports `inactive`.
- The ethics check in `start_research_project` validates a hard-coded intent (`StartIntent`), so its rejection branch cannot be reached.

## Model

| member | source | states |
|---|---|---|
| `Values.ValidateEthics` | bio_cartridge.py:180-190 | an animal test always fails; otherwise the check fails exactly when a human sample is required without consent; it passes exactly when the verdict is "approved"; missing keys count as false |
| `Values.EvaluateResearchValue` | bio_cartridge.py:169-178 | unlisted topics get 0.5; a topic scores above 0.5 exactly when it is one of the five listed ones; every value lies in [0.5, 1] |
| `Values.EmotionalResponse` | bio_cartridge.py:192-201 | the response is non-neutral exactly for the five listed events |
| `Memory.RecallKnowledge` | bio_cartridge.py:109-113 | a sheet is returned exactly for the three known topics (empty otherwise), and each known research level lies in [0, 1] |
| `Memory.Papers` | bio_cartridge.py:115-119 | the search returns the first `min(limit, n)` results stored under exactly the query, in order, and nothing for an unknown query |
| `Memory.WithResult` | bio_cartridge.py:121-125 | appending creates the domain's list when missing, puts the result at its end, and leaves every other domain unchanged |
| `Memory.BioMemory.AddResearchResult` | bio_cartridge.py:121-126 | the store after the call is the old store with the result appended under the domain |
| `Memory.BioMemory.constructor` | bio_cartridge.py:92-107 | the store starts as the loaded snapshot, or empty when there is none |
| `Memory.SearchAfterAdd` | bio_cartridge.py:115-125 | after an append, a large enough search under that domain returns the earlier results followed by the new one |
| `Memory.SearchElsewhereUnchanged` | bio_cartridge.py:115-125 | an append never changes a search under another key |
| `Memory.AppendAllStores` | bio_cartridge.py:121-125 | a series of appends to one domain stores exactly those results after the earlier ones, oldest first |
| `Memory.ContextOf` | bio_cartridge.py:128-135 | the context names the domain, has the domain's own knowledge-base sheet (present exactly for the three known domains), carries every result stored under the domain, and has confidence 0.85 |
| `Skills.SelectMethods` | bio_cartridge.py:253-266 | the method list is empty exactly for tissue engineering and cell signalling; each listed domain gets its characteristic method |
| `Skills.EstimateTimeline` | bio_cartridge.py:276-284 | the stored total (34) equals preparation + execution + analysis + writing |
| `Skills.DesignExperiment` | bio_cartridge.py:238-288 | the plan keeps the hypothesis text and domain key, takes its methods from the domain table (none exactly for the two unlisted domains), uses the fixed controls and a statistical power of 0.8, has a 34-day timeline that is the sum of its phases, and has sample size 30 |
| `Skills.PlanDependsOnlyOnDomain` | bio_cartridge.py:238-296 | two hypotheses in the same domain get identical plans apart from their text |
| `Tools.SearchLiterature` | bio_cartridge.py:332-342 | the query is ready, targets PubMed and estimates no results; an empty keyword list gives an empty query and one keyword is the query itself |
| `Tools.QueryMentionsEveryKeyword` | bio_cartridge.py:332-334 | every keyword occurs in the " AND "-joined query |
| `Tools.QueryExtends` | bio_cartridge.py:332-334 | one more keyword extends the query by " AND " and that keyword |
| `Cartridge.ProjectId` | bio_cartridge.py:470 | an id is "BIO_" followed only by digits; it is exactly 7 characters long for positions below 1000, and from position 100 on its digits carry no leading zero |
| `Cartridge.ProjectIdRoundTrip` | bio_cartridge.py:470 | reading the digits of an id back gives its ledger position, so zero padding loses nothing |
| `Cartridge.ProjectIdInjective` | bio_cartridge.py:470 | distinct positions get distinct ids |
| `Cartridge.FirstIds` | bio_cartridge.py:470 | the first two ids are "BIO_001" and "BIO_002" |
| `Cartridge.LedgerIdsIncrease` | bio_cartridge.py:469-477 | in a ledger built by the cartridge, later projects carry strictly larger id numbers and distinct ids |
| `Cartridge.Classify` | bio_cartridge.py:426-439 | a lower-cased query containing "organoid" goes to the uterine organoid, else one containing "stem" goes to stem cells, else to the endometrium (each in both directions) |
| `Cartridge.OrganoidWinsOverStem` | bio_cartridge.py:428-435 | a query whose lower-cased text contains both keywords, in any order and case, routes to the uterine organoid |
| `Cartridge.ClassifyIgnoresCase` | bio_cartridge.py:428 | a query and its lower-cased form route to the same domain |
| `Cartridge.StartIntent` | bio_cartridge.py:457-464 | the fixed intent submitted for every project passes the ethics gate, so the rejection branch is never taken |
| `Cartridge.BioCartridge.constructor` | bio_cartridge.py:380-388 | a new session is inactive, in standby, with an empty ledger |
| `Cartridge.BioCartridge.Activate` | bio_cartridge.py:390-410 | after activation the session is active with mode "active", whatever its prior state, and the ledger is unchanged |
| `Cartridge.BioCartridge.Deactivate` | bio_cartridge.py:412-416 | after deactivation the session is inactive in standby, and the ledger is unchanged |
| `Cartridge.BioCartridge.ProcessQuery` | bio_cartridge.py:418-449 | an inactive session answers "inactive" and only then; an active one reports the routed domain, the default value and no knowledge exactly for the fallback domain, and mode "active"; for the two routed domains the knowledge is that domain's sheet and the value is that domain's research value |
| `Cartridge.BioCartridge.StartResearchProject` | bio_cartridge.py:451-480 | inactive: refused with the ledger unchanged; active: exactly one approved project appended, numbered one past the old ledger length, with the planner's design; the mode still mirrors the flag |
| `Cartridge.BioCartridge.GetStatus` | bio_cartridge.py:482-491 | the reported mode agrees with the reported flag, and the project count is the ledger length |
| `Cartridge.SessionScenario` | bio_cartridge.py:380-491 | a scenario over the session methods: before activation a query is refused; after activation two projects get "BIO_001" and "BIO_002"; deactivating then reactivating leaves an active session with two projects |
| `Retrieval.Render` | 01-Analysis/research_engine.py:34-52 | the rendered text of a snippet is never empty, carries its whole excerpt, and names the hit's source or the file's directory and name; a hit's text ends with its excerpt and a file's text ends with its excerpt followed by `...` |
| `Retrieval.IsMatch` | 01-Analysis/research_engine.py:46-55 | a file matches only when its name ends in ".md", it is readable and its lower-cased text contains the lower-cased topic, and with an empty topic every readable Markdown file matches |
| `Retrieval.MatchIgnoresTopicCase` | 01-Analysis/research_engine.py:51 | a topic and its lower-cased form match the same files |
| `Retrieval.SnippetOfHit` | 01-Analysis/research_engine.py:33-34 | a hit's snippet keeps its source and exactly the first `min(1000, n)` characters of its content |
| `Retrieval.RagSnippets` | 01-Analysis/research_engine.py:30-36 | one snippet per hit, in hit order |
| `Retrieval.SnippetOfFile` | 01-Analysis/research_engine.py:46-52 | a file's snippet names its directory and file, and keeps exactly the first `min(1000, n)` characters of its content |
| `Retrieval.CollectSnippets` | 01-Analysis/research_engine.py:29-56 | the nested loops with their breaks collect exactly what the scan functions describe |
| `Retrieval.ScanFilesAdds` | 01-Analysis/research_engine.py:45-53 | the file loop adds a prefix of the folder's matches: up to the cap, or one match when the cap is already reached |
| `Retrieval.WalkAdds` | 01-Analysis/research_engine.py:44-56 | the walk loop adds the directory's matches in walk order up to the cap, or, at or above the cap, at most the first match of the top-level folder |
| `Retrieval.CollectedIsReference` | 01-Analysis/research_engine.py:39-56 | the collection is the hits' snippets followed by each directory's contribution, in the order 01-Analysis, 02-Literature, 03-Vault; missing directories contribute nothing |
| `Retrieval.HitsComeFirst` | 01-Analysis/research_engine.py:30-56 | the hits' snippets form a prefix of the collection |
| `Retrieval.CollectedBound` | 01-Analysis/research_engine.py:40-56 | the collection holds at most `max(hits, 9) + 3` snippets |
| `Retrieval.CapCanBeExceeded` | 01-Analysis/research_engine.py:40-56 | with fewer than 10 hits, at least enough matches in the first directory's top folder to reach the cap, and one match in each later top folder, exactly 12 snippets are collected |
| `Retrieval.NoResultsIff` | 01-Analysis/research_engine.py:29-59 | nothing is collected exactly when there are no hits and no existing directory holds a matching file |
| `Retrieval.UncappedCollectsAll` | 01-Analysis/research_engine.py:39-55 | below the cap, every matching Markdown file yields a snippet, in directory and walk order |
| `Retrieval.MatchesSound` | 01-Analysis/research_engine.py:46-52 | every match comes from a Markdown file of the list whose lower-cased text contains the lower-cased topic |
| `Retrieval.CollectedSound` | 01-Analysis/research_engine.py:30-55 | every collected snippet is a hit's snippet or the snippet of a matching Markdown file in one of the three directories |
| `Retrieval.ExcerptsBounded` | 01-Analysis/research_engine.py:34-52 | no collected snippet carries more than 1000 characters of content |
| `Retrieval.CombinedContext` | 01-Analysis/research_engine.py:61 | the context is empty exactly when there are no snippets, it opens with the first snippet's text, and a single snippet is its text alone |
| `Retrieval.ContextExtends` | 01-Analysis/research_engine.py:61 | below eight snippets, one more snippet extends the context by the separator `\n\n` and its text, so snippets appear in collection order |
| `Retrieval.ContextIgnoresLaterSnippets` | 01-Analysis/research_engine.py:61 | snippets after the eighth never change the combined context |
| `Retrieval.ContextShowsEarlySnippets` | 01-Analysis/research_engine.py:61 | each of the first eight snippets appears in the combined context |
| `Retrieval.PromptEmbeds` | 01-Analysis/research_engine.py:64-89 | both templates contain the topic and the whole combined context |
| `Retrieval.TemplatesDiffer` | 01-Analysis/research_engine.py:64-90 | the analysis and debate templates never yield the same prompt |
| `Retrieval.MetaAnalyze` | 01-Analysis/research_engine.py:25-94 | the component is not called exactly when nothing was collected, and the answer is then the fixed message; otherwise it is called once, with task type "debate" or "gemini" by the flag and the matching template over the first-8 context, and its answer is returned unchanged |

## Left out

- The knowledge base keeps only its keys, research levels and marker lists. The rest of its static content and of `protocols` is out, as are the Korean message texts. Messages are enumerations, and the two prompt templates and the no-results message are English renderings with the same structure: a head, the topic, a middle, the context and the task text.
- `_load_faiss_index` reads a pickle from disk and is not modelled. Its outcome is the `snapshot` parameter of the constructors. `mkdir`, logging, the module-level instance and `init_bio_cartridge` (logging only) are left out too.
- `BioSkills.analyze_data` is left out because it is floating-point statistics from Python's `statistics` module.
- `BioTools.publish_results` is left out because it reads the wall clock. `fetch_gene_data` is an echo stub and is also left out.
- `ResearchEngine.get_stats` is left out. It passes through to the search pipeline, which is not part of this model, and so is the reasoning component's implementation. The search hits are an input and the reasoning component is the `think` parameter.
- `async`/`await` are left out: the only suspension is the single awaited call to the reasoning component.
- Lower-casing covers ASCII letters only. Python's full Unicode case folding is not modelled, and neither is Python's `str` slicing by code point beyond one `char` per code point.
- Memory.Papers: a negative `limit` (a Python slice from the end) is not modelled; the limit is a natural number.
- Retrieval.CollectSnippets: a hit missing its `source` or `content` key, which would raise part-way through the hit loop, is not modelled. Hits always carry both fields, and a failed search is `SearchFailed` with no hits.
- The activation report's `available_methods` is modelled as the list of protocol names rather than a live view of the dictionary's keys.
- Memory.ContextOf: `get_context` returns the live list stored in the result store and `recall_knowledge` the live knowledge-base dictionary, so a context taken before `add_research_result` grows afterwards; the model returns a value copy, so that aliasing is not captured.
- Retrieval.MetaAnalyze: an exception raised by the reasoning component propagates out of `meta_analyze`; the model's `think` is a total function, so that failure path is not captured.
