# NexaCorp agents: the decision loop and the retrieval pipeline

This project models the two agents at the core of the NexaCorp help-desk system and proves properties of the model.

- **The communication agent** (`CommunicationAgent`) keeps the conversation history. For each user query it runs a bounded loop:
  - build a prompt from the tool list and the whole history;
  - ask the language model for its next step;
  - log the model's stripped output as a thought;
  - then either return the text after `ANSWER:`, or parse `TOOL: <name> QUERY: <query>`, call the named tool and log its normalised result or the error.
  - When `max_turns` iterations pass without an answer, it logs and returns a fixed fallback answer.
- **The retrieval agent** (`RetrievalAgent`) answers a query in four steps:
  - fetch up to 25 passages from every domain's retriever, skipping retrievers that raise;
  - drop repeated texts;
  - keep the best `top_k_rerank` passages: by the reranker, or the first ones when the reranker could not be constructed;
  - ask the language model to answer from those passages only.

  It replies `NO_INFO_FOUND…` when nothing was fetched, when no passage was kept, or when the model's reply mentions `no_info_found` in any case. Each call that returns appends one sentence to the agent's reflection. A call that an exception leaves appends none.

The project is organised in five modules:

- `Wrappers`: `Option`, and `Outcome` (a value, or the text of a raised exception).
- `Text`: the Python string operations the agents use:
  - `str.strip` with Python's whitespace set;
  - substring search and `split(sep, 1)`;
  - `lower()`, `sep.join`, and `str(n)`.
- `ToolPattern`: `re.search(r"TOOL:\s*(\w+)\s*QUERY:\s*(.*)", s, re.DOTALL)`. It is a hand-written leftmost matcher, proved to report exactly the match Python's backtracking engine reports. A declarative predicate states that match: leftmost start, then the first candidate in backtracking order.
- `Communication`: the decision loop.
  - Functions: `Decide`, `RunIteration`, `Loop` and `Session`.
  - Lemmas about those functions.
  - The class `CommunicationAgent`, whose methods are proved to update `logHistory` exactly as those functions say.
- `Retrieval`: the pipeline.
  - Functions: `Fetched`, `FetchLog`, `Dedup`, `Rank`, `Summary` and `Process`.
  - Lemmas about those functions.
  - The class `RetrievalAgent`, whose methods are proved to update `logHistory` and `reflection` as `Process` says.

Collaborators are parameters:

- The communication agent's language model is a function from the call number within a query and the prompt, to the reply or an exception. The retrieval agent calls its model at most once per request, so its model is a function of the prompt alone.
- Tools, retrievers and the reranker are functions that return a value or raise.
- `json.dumps` is a function that may raise.

The model keeps these behaviours of the code:

- **Model exceptions in the loop.** `llm.invoke` (agents/communication_agent.py:56) is outside the `try` of lines 68-93. An exception it raises leaves `handle_user_query` with nothing more logged.
- **Unguarded reranking and summarising.** In `process_request`, only the reranker's construction (agents/retrieval_agent.py:27-31) is guarded. An exception from `rerank` (line 80) or from the language model (line 109) leaves the call. Nothing more is logged and the reflection is left unchanged. Only a reranker that could not be constructed leads to the first passages being used (lines 83-86).
- **How these are modelled.** These paths give a `Raised` result.
- **Stripped replies.** The final answer is the stripped text after `ANSWER:` (agents/communication_agent.py:62). The summary is stripped too (agents/retrieval_agent.py:110).
- **Duplicate texts.** The dictionary at agents/retrieval_agent.py:74 keeps each text at the position of its first occurrence. It holds the last document object for that text. Only the text is used afterwards, so the model keeps texts in first-occurrence order.

## Model

| member | source | states |
|---|---|---|
| Text.Strip | agents/communication_agent.py:57 | `strip()` removes exactly the leading and trailing whitespace: the result is a contiguous part of the input, has no whitespace at either end, and everything cut off is whitespace |
| Text.Find | agents/communication_agent.py:61 | the first position of the substring, or none exactly when it occurs nowhere |
| Text.After | agents/communication_agent.py:62 | `split(sep, 1)[1]` is the text after the first occurrence of the separator |
| Text.LowerCharMatches | agents/retrieval_agent.py:112 | after lower-casing, a character that is not a small letter matches exactly itself and its lower-case form |
| Text.JoinPartAt | agents/retrieval_agent.py:95 | in `sep.join(parts)`, part i sits at the sum of the earlier parts and separators |
| Text.JoinSepAt | agents/retrieval_agent.py:95 | a separator follows every part but the last |
| Text.JoinAppend | agents/communication_agent.py:104 | joining one more part to a non-empty list extends the joined text by the separator and that part |
| Text.NatToStringRoundTrip | agents/retrieval_agent.py:64 | `str(n)` of a count reads back as n and has no leading zero |
| ToolPattern.BacktrackName | agents/communication_agent.py:69 | the `(\w+)` group gives back characters until `\s*QUERY:` follows it, and no longer name can be followed by it |
| ToolPattern.MatchShape | agents/communication_agent.py:69 | every match at a start has the name start and `QUERY:` position that the greedy quantifiers fix, a name no longer than the word run, and a query start no later than the one the greedy `\s*` fixes |
| ToolPattern.MatchAtFound | agents/communication_agent.py:69 | an attempt that succeeds finds a match, the first in backtracking order at that start |
| ToolPattern.MatchAtNone | agents/communication_agent.py:69 | an attempt fails only where no match starts |
| ToolPattern.SearchFrom | agents/communication_agent.py:69 | the search finds the leftmost match start, with the first match there, or none when nothing matches |
| ToolPattern.ParseTool | agents/communication_agent.py:69-74 | no tool call exactly when the pattern matches nowhere; otherwise the stripped groups of the reported match |
| ToolPattern.ReportedUnique | agents/communication_agent.py:69 | the reported match is unique |
| ToolPattern.ToolNameIsWord | agents/communication_agent.py:73 | the tool name is a non-empty run of word characters that `strip()` leaves unchanged |
| ToolPattern.BacktrackExample | agents/communication_agent.py:69 | on `TOOL: abcQUERY: x` the call is tool `abc` with query `x` |
| ToolPattern.LeftmostExample | agents/communication_agent.py:69 | on `TOOL:x TOOL: y QUERY: q` the first `TOOL:` is passed over and the call is tool `y` with query `q` |
| Communication.Lookup | agents/communication_agent.py:76-77 | a tool is found exactly when its name is registered, and it is the tool registered under that name |
| Communication.LookupUnique | agents/communication_agent.py:76-77 | in a registry without repeated names, each name finds its own tool |
| Communication.DecideAnswer | agents/communication_agent.py:61-62 | `ANSWER:` anywhere in the output ends the query with the stripped text after its first occurrence, whatever tool call the output also holds |
| Communication.DecideParseError | agents/communication_agent.py:69-93 | without `ANSWER:` and without a match, the parse error is logged and no tool is called |
| Communication.DecideUnknownTool | agents/communication_agent.py:89-90 | a matched name that is not registered logs the unknown-tool error and calls no tool |
| Communication.DecideKnownTool | agents/communication_agent.py:76-88 | a registered name calls that tool once, with the parsed query, and logs its normalised result or the error |
| Communication.Description | agents/communication_agent.py:101 | a tool's description is its stripped docstring, or the fixed placeholder when the docstring is missing or empty |
| Communication.RenderTools | agents/communication_agent.py:101 | the tool list: one line per registered tool, in registry order, joined by newlines; `Text.JoinPartAt` places each line |
| Communication.RenderHistory | agents/communication_agent.py:104 | the transcript: one `User:`/`Assistant:` line per history entry, in order, joined by newlines; its properties are `PromptReplaysHistory` and `TranscriptAppend` |
| Communication.BuildPrompt | agents/communication_agent.py:100-130 | the prompt: the fixed instructions around the tool list and the transcript; `PromptReplaysHistory` states where each turn appears |
| Communication.PromptReplaysHistory | agents/communication_agent.py:104-121 | every history entry's line appears in the prompt at its place in the transcript |
| Communication.TranscriptAppend | agents/communication_agent.py:104 | logging an entry appends one line to the transcript of the next prompt |
| Communication.ToText | agents/communication_agent.py:80-85 | a tool's response as text: the content of a model message, `json.dumps` of a dictionary (which may raise), `str` of anything else |
| Communication.DispatchEntry | agents/communication_agent.py:77-88 | the entry logged for a call to a registered tool: its result as text or the error it or `json.dumps` raised; `DispatchIsOutcome` states that it is always an outcome entry |
| Communication.Decide | agents/communication_agent.py:61-93 | what one model output leads to: the answer, or the entry to log and the tool call made; `DecideAnswer`, `DecideParseError`, `DecideUnknownTool`, `DecideKnownTool` and `DecideEntry` state each case |
| Communication.Step | agents/communication_agent.py:59-93 | one iteration after the model has replied: log the thought, then stop with the answer or log the outcome entry; `StepShape` |
| Communication.RunIteration | agents/communication_agent.py:54-93 | one iteration: build the prompt, call the model, then `Step`; `RunIterationShape` |
| Communication.Iterate | agents/communication_agent.py:52-93 | the loop body as a function of the iteration number and the history; `IterateShape` |
| Communication.Loop | agents/communication_agent.py:52-98 | the remaining iterations and the fallback; `LoopCalls`, `LoopGrowth`, `LoopAlternation` and `LoopToolCalls` |
| Communication.Session | agents/communication_agent.py:47-98 | one call of `handle_user_query`: log the query, then the loop; `SessionBudget`, `SessionHistory`, `SessionAlternation` and `SessionToolCalls` |
| Communication.ReplyOf | agents/communication_agent.py:66-98 | what the call returns: the answer and the history, or the exception that left it |
| Communication.DispatchIsOutcome | agents/communication_agent.py:78-93 | calling a tool always logs a tool result or an error entry |
| Communication.DecideEntry | agents/communication_agent.py:68-93 | every non-final decision logs an outcome entry, and calls a tool only under a registered name |
| Communication.StepShape | agents/communication_agent.py:59-93 | after the model replies, an iteration appends exactly a thought and one outcome entry, which is the final answer when it stops |
| Communication.RunIterationShape | agents/communication_agent.py:54-93 | an iteration either stops on a model exception with nothing logged, or appends a thought and one outcome entry |
| Communication.IterateShape | agents/communication_agent.py:52-93 | every iteration of the loop has that shape |
| Communication.LoopCalls | agents/communication_agent.py:52-98 | one model call per iteration, never more than the budget; running out of turns answers the fallback text, logged last |
| Communication.LoopGrowth | agents/communication_agent.py:52-98 | the loop only appends assistant entries: two per completed iteration, none for one whose model call raised, one for the fallback |
| Communication.LoopAlternation | agents/communication_agent.py:52-93 | entries the loop adds alternate thought, outcome, thought, outcome…, the fallback aside |
| Communication.LoopToolCalls | agents/communication_agent.py:76-88 | at most one tool call per model call, each under a registered name, after the earlier ones |
| Communication.SessionBudget | agents/communication_agent.py:47-98 | a query makes at most `max(max_turns, 0)` model calls, and at least one unless it runs out of turns; running out takes all of them and returns the fallback, also the last entry |
| Communication.SessionHistory | agents/communication_agent.py:47-98 | the history is append-only; the query is the first added entry, all later ones are assistant entries; an answer on call n adds 2n+1 entries, running out of turns 2·max(max_turns, 0)+2, a model exception on call n 2n-1 |
| Communication.SessionAlternation | agents/communication_agent.py:52-93 | after the query the entries alternate between a thought and its outcome entry, the fallback aside |
| Communication.SessionToolCalls | agents/communication_agent.py:68-90 | tools are called only under registered names, at most once per model call |
| Communication.CommunicationAgent.constructor | agents/communication_agent.py:11-18 | the agent starts with an empty history, the given registry (a dictionary, so no name twice) and budget, and the fixed prompt text |
| Communication.CommunicationAgent.Log | agents/communication_agent.py:20-27 | appends one entry, a user turn for role `user` and an assistant turn otherwise |
| Communication.CommunicationAgent.CallTool | agents/communication_agent.py:77-88 | the entry for a tool call: the tool's result normalised to text, or the error the tool or `json.dumps` raised |
| Communication.CommunicationAgent.Dispatch | agents/communication_agent.py:68-93 | the `try` block logs exactly the decision's entry and reports the tool call it made |
| Communication.CommunicationAgent.Respond | agents/communication_agent.py:59-93 | logs the thought, then the final answer or the outcome entry, as `Step` says |
| Communication.CommunicationAgent.Turn | agents/communication_agent.py:54-93 | one iteration changes the history as `RunIteration` says and returns the answer or the model's exception when it stops |
| Communication.CommunicationAgent.HandleUserQuery | agents/communication_agent.py:47-98 | the history and the reply are those of `Session`, to which the lemmas above apply |
| Retrieval.Dedup | agents/retrieval_agent.py:74 | the distinct texts: no text twice, the same texts as the input, and no more of them |
| Retrieval.DedupOrder | agents/retrieval_agent.py:74 | the distinct texts are in the order of their first occurrences |
| Retrieval.DedupUnique | agents/retrieval_agent.py:74 | any list of the distinct texts in first-occurrence order is the one computed |
| Retrieval.DedupExample | agents/retrieval_agent.py:74 | `A, B, A` gives `A, B` |
| Retrieval.PyPrefix | agents/retrieval_agent.py:81-86 | `s[:k]` is a prefix of s of length `min(k, len(s))`, or for negative k all but the last -k elements |
| Retrieval.Collected | agents/retrieval_agent.py:58-67 | the passages one domain adds: what its retriever returned, or none if it raised; `FetchedMembers` and `FetchedEmpty` |
| Retrieval.FetchEntries | agents/retrieval_agent.py:58-67 | the entries one domain logs: its passages under `retrieved_<n>_docs_from_<domain>` if it returned any, its error if it raised; `FailingDomainSkipped` |
| Retrieval.RetrievedRole | agents/retrieval_agent.py:64 | the role of a fetch entry, with the count written by `NatToString`; `Text.NatToStringRoundTrip` |
| Retrieval.Fetched | agents/retrieval_agent.py:57-67 | `all_docs` after the fetch loop; `FetchSplit`, `FetchAt`, `FetchedMembers` and `FetchedEmpty` |
| Retrieval.FetchLog | agents/retrieval_agent.py:57-67 | the entries the fetch loop logs; `FetchSplit`, `FetchAt` and `FailingDomainSkipped` |
| Retrieval.AfterFetch | agents/retrieval_agent.py:69-120 | everything after the fetch: the first sentinel, or the count of distinct passages and `Rank`; `NothingFetchedReply` |
| Retrieval.Rank | agents/retrieval_agent.py:77-120 | the passages kept by the reranker or by the fallback, then `Summary`; `RankConsistent`, `PassageBound`, `FallbackPassages` and `RerankedPassages` |
| Retrieval.Summary | agents/retrieval_agent.py:89-120 | the second sentinel, or the model's answer classified and logged; `SummaryConsistent`, `NothingRelevantReply` and `SummaryReply` |
| Retrieval.SummaryPrompt | agents/retrieval_agent.py:95-107 | the prompt around the query and the joined passages; `PromptHoldsPassage` and `PromptSeparatesPassages` |
| Retrieval.Process | agents/retrieval_agent.py:52-120 | one call of `process_request`; `ProcessConsistent`, `NothingFetchedReply`, `NothingRelevantReply`, `SummaryReply` and the passage lemmas |
| Retrieval.Sentence | agents/retrieval_agent.py:46-50 | the sentence `update_reflection` appends |
| Retrieval.FetchSplit | agents/retrieval_agent.py:58-67 | the passages and entries of a list of domains are those of its first part, then those of the rest |
| Retrieval.FetchAt | agents/retrieval_agent.py:58-67 | each domain contributes its passages and entries between those of the domains before and after it |
| Retrieval.FailingDomainSkipped | agents/retrieval_agent.py:66-67 | a retriever that raises contributes no passage and logs exactly its error entry |
| Retrieval.FetchedMembers | agents/retrieval_agent.py:58-65 | a passage is fetched exactly when some domain's retriever returned it |
| Retrieval.FetchedEmpty | agents/retrieval_agent.py:58-69 | nothing is fetched exactly when every retriever raised or returned nothing |
| Retrieval.LowerMarker | agents/retrieval_agent.py:106-112 | the lower-cased marker the prompt asks for is the text the reply is searched for |
| Retrieval.ProbeAtIffMarkerAt | agents/retrieval_agent.py:112 | the lower-cased reply holds `no_info_found` at a position exactly when the reply holds `NO_INFO_FOUND` there in any mix of cases |
| Retrieval.FlaggedIffMarker | agents/retrieval_agent.py:112 | a reply is classified as nothing found exactly when it holds `NO_INFO_FOUND` somewhere in any mix of cases |
| Retrieval.NegativeReplyExample | agents/retrieval_agent.py:110-112 | `I don't know. NO_INFO_FOUND` is classified as nothing found |
| Retrieval.SentinelFlagged | agents/retrieval_agent.py:72-115 | each of the three sentinel replies itself reads as nothing found and has no surrounding whitespace |
| Retrieval.SentinelsDiffer | agents/retrieval_agent.py:72-115 | the three sentinel replies are distinct, so a reply tells which step found nothing |
| Retrieval.SummaryConsistent | agents/retrieval_agent.py:89-120 | the summary step calls the model exactly when there are passages, and records the outcome as `Consistent` says |
| Retrieval.RankConsistent | agents/retrieval_agent.py:78-120 | the ranking and summary steps keep the run consistent |
| Retrieval.ProcessConsistent | agents/retrieval_agent.py:52-120 | every call is consistent: model called iff passages; no reflection iff an exception went through; success iff the reply is not "nothing found", with the summary logged last; a reply has no surrounding whitespace |
| Retrieval.NothingFetchedReply | agents/retrieval_agent.py:58-72 | the first sentinel is the reply iff every retriever raised or returned nothing; the reranker and the model are then not called and failure is recorded |
| Retrieval.PassageBound | agents/retrieval_agent.py:78-86 | when `top_k_rerank` ≥ 0, at most `top_k_rerank` passages reach the model (a negative value drops that many from the end instead, as `PyPrefix` states) |
| Retrieval.FallbackPassages | agents/retrieval_agent.py:83-86 | without a reranker the passages are the first `top_k_rerank` distinct fetched texts in fetch order, and the warning is logged |
| Retrieval.RerankedPassages | agents/retrieval_agent.py:78-82 | with a reranker the passages are the first `top_k_rerank` texts it ranked; if it raises, the exception goes through before the model is called |
| Retrieval.NothingRelevantReply | agents/retrieval_agent.py:89-92 | the second sentinel is the reply iff something was fetched, no passage was kept and no exception went through |
| Retrieval.SummaryReply | agents/retrieval_agent.py:95-120 | the model is asked with the passages joined by the separator; its stripped reply is "nothing found" if it mentions the marker in any case, otherwise it is the reply |
| Retrieval.PromptHoldsPassage | agents/retrieval_agent.py:95-107 | every kept passage appears in the prompt after the head and the query |
| Retrieval.PromptSeparatesPassages | agents/retrieval_agent.py:95-107 | in the prompt the separator follows every kept passage but the last |
| Retrieval.RetrievalAgent.constructor | agents/retrieval_agent.py:18-31 | the agent starts with an empty log and reflection, and keeps a reranker only when its construction succeeded |
| Retrieval.RetrievalAgent.Log | agents/retrieval_agent.py:34-35 | appends one entry |
| Retrieval.RetrievalAgent.UpdateReflection | agents/retrieval_agent.py:46-50 | appends the success or the failure sentence |
| Retrieval.RetrievalAgent.FetchAll | agents/retrieval_agent.py:57-67 | the fetch loop collects `Fetched` and logs `FetchLog` |
| Retrieval.RetrievalAgent.Summarise | agents/retrieval_agent.py:89-120 | the summary step as `Summary` says |
| Retrieval.RetrievalAgent.RankAndSummarise | agents/retrieval_agent.py:77-120 | the ranking and summary steps as `Rank` says |
| Retrieval.RetrievalAgent.Conclude | agents/retrieval_agent.py:69-120 | everything after the fetch, as `AfterFetch` says |
| Retrieval.RetrievalAgent.ProcessRequest | agents/retrieval_agent.py:52-120 | reply, log and reflection are those of `Process`, to which the lemmas above apply |

## Left out

- Session files: `_save_log_to_file` and `_save_log` (agents/communication_agent.py:29-45, agents/retrieval_agent.py:37-44) write JSON files named by the clock. They are not modelled, nor is any error they may raise.
- The warning the retrieval agent's constructor prints when the reranker cannot be built (agents/retrieval_agent.py:30) is not modelled. The failure itself is the `rankerSetup` parameter.
- The language model handles (`llm`) and the unused `memory` and `reflection_message` of the communication agent are left out. The model is a parameter of each query.
- Text.IsWordChar: `\w` is modelled on ASCII letters, digits and `_` only. Python's Unicode word characters are not.
- Text.Lower: `lower()` is modelled on ASCII letters only. This is exact for the search for `no_info_found`. Only two non-ASCII characters lower-case to something holding an ASCII letter. U+212A lower-cases to `k`, which the marker lacks. U+0130 lower-cases to `i` followed by a combining dot, and in the marker `i` is followed by `n`.
- Documents are modelled by their `page_content`. Metadata, and which of two documents with the same text is kept, are not.
- Retrievers are modelled as functions of `k` and the query. Setting `search_kwargs = {'k': 25}` on the shared retriever object (agents/retrieval_agent.py:61) is modelled as passing 25.
- The reranker is modelled as a function from the query and the texts to the ranked texts. The `RerankRequest` objects and the result dictionaries of flashrank are not modelled. A constructed reranker is taken to be truthy (agents/retrieval_agent.py:78).
- Replies are modelled as their content. `AIMessage` objects are not.
- Tools are modelled as functions of their query alone. A tool with state of its own cannot be expressed: such a tool could answer the same query differently twice in one session. The retrieval agent used as a tool is one, since its log, reflection and model change between calls. No lemma here depends on a tool's answers being repeatable.
- `handle_user_query` returns its history list itself, so a caller shares it with the agent. The model returns the history as a value.
- The multi-agent wiring, the judge and optimizer agents, the ticket tool and the vector-store builder are not part of this model. They only call these agents or serve them as tools.
