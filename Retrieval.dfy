/** The retrieval agent (agents/retrieval_agent.py): fetch passages from every domain,
    drop repeated texts, keep the best few (by the reranker, or the first few when the
    reranker could not be set up), and ask the language model to answer from them.

    Documents are represented by their text (`page_content`), the only part of them the
    agent reads. Retrievers, the reranker and the language model are functions that
    return a value or raise. */
module Retrieval {
  import opened Wrappers
  import opened Text

  /** A vector-store retriever: the number of passages asked for and the query, to the
      passages found. */
  type Retriever = (nat, string) -> Outcome<seq<string>>

  /** The reranker: the query and the passages, to the passages best first. */
  type Reranker = (string, seq<string>) -> Outcome<seq<string>>

  /** The language model: the prompt, to the content of its reply. */
  type Summariser = string -> Outcome<string>

  /** One entry of `self.retrievers`: the domain name and its retriever. */
  datatype Domain = Domain(name: string, retriever: Retriever)

  /** What a log entry holds: a text, a list of texts or a count. */
  datatype LogContent = Str(text: string) | Texts(texts: seq<string>) | Count(count: nat)

  datatype LogEntry = LogEntry(role: string, content: LogContent)

  /** How many passages each retriever is asked for (`search_kwargs = {'k': 25}`). */
  const FetchK: nat := 25

  /** The reply when the model finds nothing; the two other sentinels start with it. */
  const NoInfo: string := "NO_INFO_FOUND"
  const NothingFetched: string := NoInfo + ": No documents were found in the initial fetch."
  const NothingRelevant: string := NoInfo + ": Re-ranking did not find any relevant documents."
  /** What the lower-cased summary is searched for. */
  const NoInfoProbe: string := "no_info_found"
  const Separator: string := "\n\n---\n\n"
  const SuccessSentence: string := " Found relevant documents via re-ranking."
  const FailureSentence: string := " Could not find useful documents even after re-ranking."
  const NoRerankerWarning: string := "Re-ranker not available, using top documents from initial fetch."

  function FetchThought(query: string): string {
    "Step 1: Fetching initial documents for query: '" + query + "'"
  }

  function RetrieveError(domain: string, error: string): string {
    "Error retrieving from domain " + domain + ": " + error
  }

  function RetrievedRole(n: nat, domain: string): string {
    "retrieved_" + NatToString(n) + "_docs_from_" + domain
  }

  /** The fixed text of the summary prompt around the query and the context. */
  datatype SummaryTemplate = SummaryTemplate(head: string, middle: string, tail: string)

  /** The text `process_request` puts around the query and the context. */
  const SummaryPromptText: SummaryTemplate := SummaryTemplate(
    "You are a helpful assistant. Based ONLY on the following highly relevant documents, provide a direct and concise answer to the user's original query.\n\n        User's Original Query: \"",
    "\"\n\n        Retrieved Documents:\n        ---\n        ",
    "\n        ---\n\n        If the documents contain the answer, extract it precisely. If they do not, respond with exactly \"NO_INFO_FOUND\".\n        ")

  function SummaryPrompt(t: SummaryTemplate, query: string, context: string): string {
    t.head + query + t.middle + context + t.tail
  }

  /** The sentence `update_reflection(success)` appends. */
  function Sentence(success: bool): string {
    if success then SuccessSentence else FailureSentence
  }

  /** What a call appends to the reflection: the sentence for its outcome, or nothing
      when it raised before reaching one. */
  function Reflected(success: Option<bool>): string {
    match success
    case Some(b) => Sentence(b)
    case None => ""
  }

  // ---------------------------------------------------------------------------
  // Step 1: the fetch

  /** The passages one domain contributes: what its retriever returned, or none if it raised. */
  function Collected(d: Domain, query: string): seq<string> {
    match d.retriever(FetchK, query)
    case Ok(docs) => docs
    case Raised(_) => []
  }

  /** The entries logged for one domain: its passages if it returned any, the error if
      it raised, nothing if it returned none. */
  function FetchEntries(d: Domain, query: string): seq<LogEntry> {
    match d.retriever(FetchK, query)
    case Ok(docs) => if docs == [] then [] else [LogEntry(RetrievedRole(|docs|, d.name), Texts(docs))]
    case Raised(e) => [LogEntry("error", Str(RetrieveError(d.name, e)))]
  }

  /** `all_docs` after the fetch loop over the domains, in domain order. */
  function Fetched(domains: seq<Domain>, query: string): seq<string>
    decreases |domains|
  {
    if domains == [] then []
    else Fetched(domains[..|domains| - 1], query) + Collected(domains[|domains| - 1], query)
  }

  /** The entries the fetch loop logs, in domain order. */
  function FetchLog(domains: seq<Domain>, query: string): seq<LogEntry>
    decreases |domains|
  {
    if domains == [] then []
    else FetchLog(domains[..|domains| - 1], query) + FetchEntries(domains[|domains| - 1], query)
  }

  // ---------------------------------------------------------------------------
  // Dropping repeated texts

  /** `list({doc.page_content: doc for doc in docs}.values())` on the texts: a text is
      kept where it first occurs, since a dictionary keeps a key where it was first
      inserted. */
  function Dedup(texts: seq<string>): (r: seq<string>)
    ensures forall i, j :: 0 <= i < j < |r| ==> r[i] != r[j]
    ensures forall x :: x in r <==> x in texts
    ensures |r| <= |texts|
    decreases |texts|
  {
    if texts == [] then []
    else
      var init := Dedup(texts[..|texts| - 1]);
      var last := texts[|texts| - 1];
      assert forall x :: x in texts <==> x in texts[..|texts| - 1] || x == last by {
        assert texts == texts[..|texts| - 1] + [last];
      }
      if last in init then init else init + [last]
  }

  /** The position of the first occurrence of x in s. */
  function FirstIndex(s: seq<string>, x: string): (i: nat)
    requires x in s
    ensures i < |s| && s[i] == x && forall j :: 0 <= j < i ==> s[j] != x
  {
    if s[0] == x then 0 else 1 + FirstIndex(s[1..], x)
  }

  /** Adding text at the end leaves the first occurrences of earlier texts where they were. */
  lemma FirstIndexPrefix(s: seq<string>, x: string)
    requires |s| > 0 && x in s[..|s| - 1]
    ensures FirstIndex(s, x) == FirstIndex(s[..|s| - 1], x)
  {
    var i := FirstIndex(s[..|s| - 1], x);
    assert s[i] == x;
    assert forall j :: 0 <= j < i ==> s[j] == s[..|s| - 1][j];
  }

  /** Proof helper: a non-empty list has its first element as a member. Dafny knows
      this; naming it lets a proof reach a contradiction in one step. */
  lemma HeadMember(s: seq<string>)
    requires s != []
    ensures s[0] in s
  {
  }

  /** r lists the texts of `texts`, each once, in the order of their first occurrences. */
  ghost predicate FirstOccurrenceOrder(texts: seq<string>, r: seq<string>) {
    && (forall i, j :: 0 <= i < j < |r| ==> r[i] != r[j])
    && (forall x :: x in r <==> x in texts)
    && (forall i, j :: 0 <= i < j < |r| ==> FirstIndex(texts, r[i]) < FirstIndex(texts, r[j]))
  }

  /** A text that occurred before adds nothing to an order of the earlier texts. */
  lemma ExtendRepeatedLast(texts: seq<string>, d: seq<string>)
    requires |texts| > 0 && texts[|texts| - 1] in texts[..|texts| - 1]
    requires FirstOccurrenceOrder(texts[..|texts| - 1], d)
    ensures FirstOccurrenceOrder(texts, d)
  {
    var init := texts[..|texts| - 1];
    assert texts == init + [texts[|texts| - 1]];
    forall x | x in d ensures FirstIndex(texts, x) == FirstIndex(init, x) {
      FirstIndexPrefix(texts, x);
    }
  }

  /** A text that occurs first at the end comes after every earlier one. */
  lemma FirstIndexNewLast(texts: seq<string>, d: seq<string>)
    requires |texts| > 0 && texts[|texts| - 1] !in texts[..|texts| - 1]
    requires forall x :: x in d ==> x in texts[..|texts| - 1]
    ensures FirstIndex(texts, texts[|texts| - 1]) == |texts| - 1
    ensures forall x :: x in d ==> FirstIndex(texts, x) == FirstIndex(texts[..|texts| - 1], x) < |texts| - 1
  {
    var init := texts[..|texts| - 1];
    forall x | x in d ensures FirstIndex(texts, x) == FirstIndex(init, x) < |texts| - 1 {
      FirstIndexPrefix(texts, x);
    }
    assert forall j :: 0 <= j < |texts| - 1 ==> texts[j] == init[j];
  }

  /** A new text at the end goes at the end of the order. */
  lemma ExtendNewLast(texts: seq<string>, d: seq<string>)
    requires |texts| > 0 && texts[|texts| - 1] !in texts[..|texts| - 1]
    requires FirstOccurrenceOrder(texts[..|texts| - 1], d)
    ensures FirstOccurrenceOrder(texts, d + [texts[|texts| - 1]])
  {
    var n := |texts|;
    var last := texts[n - 1];
    assert texts == texts[..n - 1] + [last];
    FirstIndexNewLast(texts, d);
    var r := d + [last];
    forall i, j | 0 <= i < j < |r| ensures FirstIndex(texts, r[i]) < FirstIndex(texts, r[j]) {
      assert r[i] == d[i] && r[i] in d;
      if j < |d| {
        assert r[j] == d[j] && r[j] in d;
      }
    }
  }

  /** The kept texts are in the order of their first occurrences. */
  lemma {:induction false} DedupOrder(texts: seq<string>)
    ensures FirstOccurrenceOrder(texts, Dedup(texts))
    decreases |texts|
  {
    if texts != [] {
      var init := texts[..|texts| - 1];
      DedupOrder(init);
      if texts[|texts| - 1] in init {
        ExtendRepeatedLast(texts, Dedup(init));
      } else {
        ExtendNewLast(texts, Dedup(init));
      }
    }
  }

  /** When the last text occurred earlier, an order of `texts` is one of the texts before it. */
  lemma DropRepeatedLast(texts: seq<string>, r: seq<string>)
    requires |texts| > 0 && texts[|texts| - 1] in texts[..|texts| - 1]
    requires FirstOccurrenceOrder(texts, r)
    ensures FirstOccurrenceOrder(texts[..|texts| - 1], r)
  {
    var init := texts[..|texts| - 1];
    assert texts == init + [texts[|texts| - 1]];
    forall x | x in r ensures x in init && FirstIndex(texts, x) == FirstIndex(init, x) {
      FirstIndexPrefix(texts, x);
    }
    forall i, j | 0 <= i < j < |r| ensures FirstIndex(init, r[i]) < FirstIndex(init, r[j]) {
      assert r[i] in r && r[j] in r;
    }
  }

  /** When the last text is new, it is the last of the order. */
  lemma NewLastEnds(texts: seq<string>, r: seq<string>)
    requires |texts| > 0 && texts[|texts| - 1] !in texts[..|texts| - 1]
    requires FirstOccurrenceOrder(texts, r)
    ensures |r| > 0 && r[|r| - 1] == texts[|texts| - 1]
  {
    var n := |texts|;
    var last := texts[n - 1];
    assert texts == texts[..n - 1] + [last];
    assert last in r;
    assert FirstIndex(texts, last) == n - 1;
    var k :| 0 <= k < |r| && r[k] == last;
    var y := r[|r| - 1];
    assert y in r;
    assert FirstIndex(texts, y) <= n - 1;
    assert k == |r| - 1;
  }

  /** When the last text is new, the order without it is one of the texts before it. */
  lemma DropNewLast(texts: seq<string>, r: seq<string>)
    requires |texts| > 0 && texts[|texts| - 1] !in texts[..|texts| - 1]
    requires FirstOccurrenceOrder(texts, r)
    requires |r| > 0 && r[|r| - 1] == texts[|texts| - 1]
    ensures FirstOccurrenceOrder(texts[..|texts| - 1], r[..|r| - 1])
  {
    var n := |texts|;
    var init := texts[..n - 1];
    var last := texts[n - 1];
    assert texts == init + [last];
    var r' := r[..|r| - 1];
    forall x | x in r' ensures x in init && FirstIndex(texts, x) == FirstIndex(init, x) {
      var i :| 0 <= i < |r'| && r'[i] == x;
      assert r[i] == x && x != last;
      FirstIndexPrefix(texts, x);
    }
    forall x | x in init ensures x in r' {
      assert x in r && x != last;
      var i :| 0 <= i < |r| && r[i] == x;
      assert i < |r| - 1;
      assert r'[i] == x;
    }
    forall i, j | 0 <= i < j < |r'| ensures FirstIndex(init, r'[i]) < FirstIndex(init, r'[j]) {
      assert r'[i] == r[i] && r'[j] == r[j];
      assert r'[i] in r' && r'[j] in r';
    }
  }

  /** Keeping first occurrences is the only order-respecting way to list each text once:
      any list of distinct texts with the same members, in first-occurrence order, is
      the one Dedup computes. */
  lemma {:induction false} DedupUnique(texts: seq<string>, r: seq<string>)
    requires FirstOccurrenceOrder(texts, r)
    ensures r == Dedup(texts)
    decreases |texts|
  {
    if texts == [] {
      if r != [] {
        HeadMember(r);
        assert false;
      }
    } else {
      var init := texts[..|texts| - 1];
      if texts[|texts| - 1] in init {
        DropRepeatedLast(texts, r);
        DedupUnique(init, r);
      } else {
        NewLastEnds(texts, r);
        DropNewLast(texts, r);
        DedupUnique(init, r[..|r| - 1]);
        assert r == r[..|r| - 1] + [r[|r| - 1]];
      }
    }
  }

  /** Repeated texts collapse to their first occurrence: `A, B, A` gives `A, B`. */
  lemma DedupExample()
    ensures Dedup(["A", "B", "A"]) == ["A", "B"]
  {
    var texts := ["A", "B", "A"];
    assert texts[..2] == ["A", "B"] && texts[..2][..1] == ["A"] && texts[..2][..1][..0] == [];
    assert Dedup(["A"]) == ["A"];
    assert "B" != "A";
    assert Dedup(["A", "B"]) == ["A", "B"];
  }

  // ---------------------------------------------------------------------------
  // Steps 2 and 3: ranking and summary

  /** `s[:k]`: the first k elements, or for a negative k all but the last -k. */
  function PyPrefix<T>(s: seq<T>, k: int): (r: seq<T>)
    ensures |r| <= |s| && r == s[..|r|]
    ensures k >= 0 ==> |r| == (if k < |s| then k else |s|)
    ensures k < 0 ==> |r| == (if |s| + k > 0 then |s| + k else 0)
  {
    if k >= 0 then (if k < |s| then s[..k] else s)
    else if |s| + k > 0 then s[..|s| + k] else []
  }

  /** How a call of `process_request` came out: its reply (or the exception that went
      through), the entries it logged, the passages it handed to the language model,
      the outcome it recorded in the reflection (none when an exception went through),
      and whether it called the reranker and the language model. */
  datatype Run = Run(result: Outcome<string>, log: seq<LogEntry>, passages: seq<string>,
                     success: Option<bool>, reranked: bool, summarised: bool)

  /** The last step on the selected passages: the sentinel if there are none, otherwise
      the model's stripped answer, unless it says in any case that it found nothing. */
  function Summary(t: SummaryTemplate, summarise: Summariser, query: string, top: seq<string>): Run {
    if top == [] then Run(Ok(NothingRelevant), [], top, Some(false), false, false)
    else
      match summarise(SummaryPrompt(t, query, Join(Separator, top)))
      case Raised(e) => Run(Raised(e), [], top, None, false, true)
      case Ok(content) =>
        var summary := Strip(content);
        if Contains(Lower(summary), NoInfoProbe) then Run(Ok(NoInfo), [], top, Some(false), false, true)
        else Run(Ok(summary), [LogEntry("ra_summary", Str(summary))], top, Some(true), false, true)
  }

  /** The ranking step on the distinct passages, followed by the summary. */
  function Rank(t: SummaryTemplate, reranker: Option<Reranker>, topK: int, summarise: Summariser,
                query: string, unique: seq<string>): Run
  {
    match reranker
    case None =>
      var r := Summary(t, summarise, query, PyPrefix(unique, topK));
      r.(log := [LogEntry("warning", Str(NoRerankerWarning))] + r.log)
    case Some(rerank) =>
      match rerank(query, unique)
      case Raised(e) => Run(Raised(e), [], [], None, true, false)
      case Ok(results) =>
        var top := PyPrefix(results, topK);
        var r := Summary(t, summarise, query, top);
        r.(log := [LogEntry("reranked_top_docs_content", Texts(top))] + r.log, reranked := true)
  }

  /** The entries logged before the fetch. */
  function Opening(query: string): seq<LogEntry> {
    [LogEntry("ca_message", Str(query)), LogEntry("ra_thought", Str(FetchThought(query)))]
  }

  /** What follows the fetch: the first sentinel if nothing was fetched, otherwise the
      count of distinct passages is logged and they are ranked. */
  function AfterFetch(t: SummaryTemplate, reranker: Option<Reranker>, topK: int, summarise: Summariser,
                      query: string, docs: seq<string>): Run
  {
    if docs == [] then Run(Ok(NothingFetched), [], [], Some(false), false, false)
    else
      var unique := Dedup(docs);
      var r := Rank(t, reranker, topK, summarise, query, unique);
      r.(log := [LogEntry("initial_unique_docs_count", Count(|unique|))] + r.log)
  }

  /** `process_request(query)`. */
  function Process(t: SummaryTemplate, domains: seq<Domain>, reranker: Option<Reranker>, topK: int,
                   summarise: Summariser, query: string): Run
  {
    var r := AfterFetch(t, reranker, topK, summarise, query, Fetched(domains, query));
    r.(log := Opening(query) + FetchLog(domains, query) + r.log)
  }

  /** Proof helper: concatenation of log batches is associative. Dafny knows this;
      naming the three batches keeps the proofs of the methods below cheap. */
  lemma LogsCompose(a: seq<LogEntry>, b: seq<LogEntry>, c: seq<LogEntry>)
    ensures (a + b) + c == a + (b + c)
  {
  }

  // ---------------------------------------------------------------------------
  // What the fetch guarantees

  /** Fetching from a list of domains is fetching from its first part, then from the rest. */
  lemma {:induction false} FetchSplit(a: seq<Domain>, b: seq<Domain>, query: string)
    ensures Fetched(a + b, query) == Fetched(a, query) + Fetched(b, query)
    ensures FetchLog(a + b, query) == FetchLog(a, query) + FetchLog(b, query)
    decreases |b|
  {
    if b == [] {
      assert a + b == a;
    } else {
      var init, last := b[..|b| - 1], b[|b| - 1];
      assert (a + b)[..|a + b| - 1] == a + init;
      assert (a + b)[|a + b| - 1] == last;
      FetchSplit(a, init, query);
      assert Fetched(a + b, query) == Fetched(a + init, query) + Collected(last, query);
      assert Fetched(b, query) == Fetched(init, query) + Collected(last, query);
      assert FetchLog(a + b, query) == FetchLog(a + init, query) + FetchEntries(last, query);
      assert FetchLog(b, query) == FetchLog(init, query) + FetchEntries(last, query);
      var fa, fi, c := Fetched(a, query), Fetched(init, query), Collected(last, query);
      assert (fa + fi) + c == fa + (fi + c);
      LogsCompose(FetchLog(a, query), FetchLog(init, query), FetchEntries(last, query));
    }
  }

  /** Domain k contributes its passages and its entries between those of the domains
      before it and those after it. */
  lemma FetchAt(domains: seq<Domain>, query: string, k: nat)
    requires k < |domains|
    ensures Fetched(domains, query)
            == Fetched(domains[..k], query) + Collected(domains[k], query) + Fetched(domains[k + 1..], query)
    ensures FetchLog(domains, query)
            == FetchLog(domains[..k], query) + FetchEntries(domains[k], query) + FetchLog(domains[k + 1..], query)
  {
    assert domains == (domains[..k] + [domains[k]]) + domains[k + 1..];
    FetchSplit(domains[..k] + [domains[k]], domains[k + 1..], query);
    assert (domains[..k] + [domains[k]])[..k] == domains[..k];
  }

  /** A domain whose retriever raises contributes no passage and logs exactly its error. */
  lemma FailingDomainSkipped(before: seq<Domain>, d: Domain, after: seq<Domain>, query: string, e: string)
    requires d.retriever(FetchK, query) == Raised(e)
    ensures Fetched(before + [d] + after, query) == Fetched(before, query) + Fetched(after, query)
    ensures FetchLog(before + [d] + after, query)
            == FetchLog(before, query) + [LogEntry("error", Str(RetrieveError(d.name, e)))] + FetchLog(after, query)
  {
    FetchSplit(before + [d], after, query);
    FetchSplit(before, [d], query);
    FetchOne(d, query);
    assert Collected(d, query) == [];
    assert FetchEntries(d, query) == [LogEntry("error", Str(RetrieveError(d.name, e)))];
    assert Fetched(before, query) + [] == Fetched(before, query);
  }

  /** Fetching from one domain is collecting from it. */
  lemma FetchOne(d: Domain, query: string)
    ensures Fetched([d], query) == Collected(d, query)
    ensures FetchLog([d], query) == FetchEntries(d, query)
  {
    assert [d][..0] == [];
  }

  /** A passage is fetched exactly when some domain's retriever returned it. */
  lemma {:induction false} FetchedMembers(domains: seq<Domain>, query: string, x: string)
    ensures x in Fetched(domains, query) <==> exists k :: 0 <= k < |domains| && x in Collected(domains[k], query)
    decreases |domains|
  {
    if domains != [] {
      var n := |domains|;
      FetchedMembers(domains[..n - 1], query, x);
      if x in Fetched(domains, query) && x !in Collected(domains[n - 1], query) {
        var k :| 0 <= k < n - 1 && x in Collected(domains[..n - 1][k], query);
        assert domains[..n - 1][k] == domains[k];
      }
      forall k | 0 <= k < n - 1
        ensures x in Collected(domains[k], query) ==> x in Fetched(domains[..n - 1], query)
      {
        assert domains[..n - 1][k] == domains[k];
      }
    }
  }

  /** Nothing is fetched exactly when every retriever raised or returned no passage. */
  lemma {:induction false} FetchedEmpty(domains: seq<Domain>, query: string)
    ensures Fetched(domains, query) == [] <==> forall k :: 0 <= k < |domains| ==> Collected(domains[k], query) == []
    decreases |domains|
  {
    if domains != [] {
      var n := |domains|;
      var init := domains[..n - 1];
      FetchedEmpty(init, query);
      assert Fetched(domains, query) == Fetched(init, query) + Collected(domains[n - 1], query);
      if Fetched(domains, query) == [] {
        forall k | 0 <= k < n ensures Collected(domains[k], query) == [] {
          if k < n - 1 {
            assert init[k] == domains[k];
          }
        }
      } else if Fetched(init, query) != [] {
        var k :| 0 <= k < n - 1 && Collected(init[k], query) != [];
        assert init[k] == domains[k];
      }
    }
  }

  // ---------------------------------------------------------------------------
  // What process_request guarantees

  /** Lower-casing the marker the prompt asks for gives the text the reply is searched for. */
  lemma LowerMarker()
    ensures Lower(NoInfo) == NoInfoProbe
  {
  }

  /** Proof helper, one direction of `FlaggedIffMarker` for the all-capitals marker:
      a text that holds `NO_INFO_FOUND` at i is flagged as "nothing found". */
  lemma MarkerFlagged(s: string, i: nat)
    requires HasAt(s, i, NoInfo)
    ensures Contains(Lower(s), NoInfoProbe)
  {
    LowerMarker();
    assert Lower(s)[i..i + |NoInfo|] == NoInfoProbe by {
      forall k | 0 <= k < |NoInfo| ensures Lower(s)[i + k] == NoInfoProbe[k] {
        assert s[i + k] == NoInfo[k];
        assert Lower(NoInfo)[k] == LowerChar(NoInfo[k]);
      }
    }
    assert HasAt(Lower(s), i, NoInfoProbe);
  }

  /** The marker occurs in s at i in any mix of cases: each character is the
      capital or the small form of the marker's. */
  predicate MarkerAt(s: string, i: int) {
    0 <= i && i + |NoInfo| <= |s|
    && forall k :: 0 <= k < |NoInfo| ==> s[i + k] == NoInfo[k] || s[i + k] == NoInfoProbe[k]
  }

  /** No character of the marker is a small letter, and each lower-cases to the probe's. */
  lemma MarkerCases(k: nat)
    requires k < |NoInfo|
    ensures !('a' <= NoInfo[k] <= 'z') && LowerChar(NoInfo[k]) == NoInfoProbe[k]
  {
  }

  /** The lower-cased text holds the probe at i exactly when the text holds the marker there. */
  lemma ProbeAtIffMarkerAt(s: string, i: nat)
    requires i + |NoInfo| <= |s|
    ensures HasAt(Lower(s), i, NoInfoProbe) <==> MarkerAt(s, i)
  {
    forall k | 0 <= k < |NoInfo|
      ensures Lower(s)[i + k] == NoInfoProbe[k] <==> s[i + k] == NoInfo[k] || s[i + k] == NoInfoProbe[k]
    {
      MarkerCases(k);
      LowerCharMatches(s[i + k], NoInfo[k]);
    }
    if HasAt(Lower(s), i, NoInfoProbe) {
      forall k | 0 <= k < |NoInfo| ensures Lower(s)[i + k] == NoInfoProbe[k] {
        assert Lower(s)[i..i + |NoInfoProbe|][k] == NoInfoProbe[k];
      }
    }
    if MarkerAt(s, i) {
      assert Lower(s)[i..i + |NoInfoProbe|] == NoInfoProbe;
    }
  }

  /** `"no_info_found" in summary.lower()` holds exactly when the summary holds
      `NO_INFO_FOUND` in any mix of cases. */
  lemma FlaggedIffMarker(s: string)
    ensures Contains(Lower(s), NoInfoProbe) <==> exists i :: MarkerAt(s, i)
  {
    if Contains(Lower(s), NoInfoProbe) {
      var i :| HasAt(Lower(s), i, NoInfoProbe);
      ProbeAtIffMarkerAt(s, i);
    }
    if i :| MarkerAt(s, i) {
      ProbeAtIffMarkerAt(s, i);
    }
  }

  /** The sentinels say, in any case, that nothing was found, and have no surrounding whitespace. */
  lemma SentinelFlagged(s: string)
    requires s == NoInfo || s == NothingFetched || s == NothingRelevant
    ensures Contains(Lower(s), NoInfoProbe)
    ensures IsStripped(s)
  {
    assert s[..|NoInfo|] == NoInfo;
    MarkerFlagged(s, 0);
    assert s[0] == 'N';
    assert !IsSpace(s[|s| - 1]) by {
      assert s[|s| - 1] == 'D' || s[|s| - 1] == '.';
    }
  }

  /** A reply that ends with the marker after some text is recognised as "nothing found". */
  lemma NegativeReplyExample()
    ensures Contains(Lower(Strip("I don't know. NO_INFO_FOUND")), NoInfoProbe)
  {
    var reply := "I don't know. NO_INFO_FOUND";
    assert IsStripped(reply) by {
      assert reply[0] == 'I' && reply[|reply| - 1] == 'D';
    }
    StripStripped(reply);
    assert reply[14..27] == NoInfo;
    MarkerFlagged(reply, 14);
  }

  /** The three sentinels differ. */
  lemma SentinelsDiffer()
    ensures NothingFetched != NothingRelevant && NothingFetched != NoInfo && NothingRelevant != NoInfo
  {
    assert |NoInfo| < |NothingFetched| < |NothingRelevant|;
  }

  /** How the parts of a run fit together: the model is called exactly when there are
      passages to give it; the reflection records no outcome exactly when an exception
      went through, and success exactly when the reply is not a "nothing found" reply;
      a successful reply is the model's summary and was logged as the last entry; and
      a reply never has surrounding whitespace. */
  ghost predicate Consistent(r: Run) {
    && (r.summarised <==> r.passages != [])
    && (r.success.None? <==> r.result.Raised?)
    && (r.success == Some(true) <==> r.result.Ok? && !Contains(Lower(r.result.value), NoInfoProbe))
    && (r.success == Some(true) ==> |r.log| > 0 && r.log[|r.log| - 1] == LogEntry("ra_summary", Str(r.result.value)))
    && (r.result.Ok? ==> IsStripped(r.result.value))
  }

  lemma SummaryConsistent(t: SummaryTemplate, summarise: Summariser, query: string, top: seq<string>)
    ensures Consistent(Summary(t, summarise, query, top))
    ensures Summary(t, summarise, query, top).passages == top
  {
    if top == [] {
      SentinelFlagged(NothingRelevant);
    } else {
      match summarise(SummaryPrompt(t, query, Join(Separator, top)))
      case Raised(e) =>
      case Ok(content) =>
        if Contains(Lower(Strip(content)), NoInfoProbe) {
          SentinelFlagged(NoInfo);
        }
    }
  }

  /** Prepending entries to a consistent run's log keeps it consistent. */
  lemma PrependConsistent(r: Run, entries: seq<LogEntry>)
    requires Consistent(r)
    ensures Consistent(r.(log := entries + r.log))
  {
    if r.success == Some(true) {
      assert (entries + r.log)[|entries + r.log| - 1] == r.log[|r.log| - 1];
    }
  }

  lemma RankConsistent(t: SummaryTemplate, reranker: Option<Reranker>, topK: int, summarise: Summariser,
                       query: string, unique: seq<string>)
    ensures Consistent(Rank(t, reranker, topK, summarise, query, unique))
  {
    match reranker
    case None =>
      var top := PyPrefix(unique, topK);
      SummaryConsistent(t, summarise, query, top);
      PrependConsistent(Summary(t, summarise, query, top), [LogEntry("warning", Str(NoRerankerWarning))]);
    case Some(rerank) =>
      match rerank(query, unique)
      case Raised(e) =>
      case Ok(results) =>
        var top := PyPrefix(results, topK);
        SummaryConsistent(t, summarise, query, top);
        PrependConsistent(Summary(t, summarise, query, top), [LogEntry("reranked_top_docs_content", Texts(top))]);
  }

  /** Every call of `process_request` is consistent. */
  lemma ProcessConsistent(t: SummaryTemplate, domains: seq<Domain>, reranker: Option<Reranker>, topK: int,
                          summarise: Summariser, query: string)
    ensures Consistent(Process(t, domains, reranker, topK, summarise, query))
  {
    var docs := Fetched(domains, query);
    if docs == [] {
      SentinelFlagged(NothingFetched);
    } else {
      var unique := Dedup(docs);
      RankConsistent(t, reranker, topK, summarise, query, unique);
      var r := Rank(t, reranker, topK, summarise, query, unique);
      PrependConsistent(r, [LogEntry("initial_unique_docs_count", Count(|unique|))]);
    }
    PrependConsistent(AfterFetch(t, reranker, topK, summarise, query, docs), Opening(query) + FetchLog(domains, query));
  }

  /** Once something was fetched, the first sentinel is never the reply. */
  lemma SummaryNotNothingFetched(t: SummaryTemplate, summarise: Summariser, query: string, top: seq<string>)
    ensures Summary(t, summarise, query, top).result != Ok(NothingFetched)
  {
    SentinelsDiffer();
    if top != [] {
      match summarise(SummaryPrompt(t, query, Join(Separator, top)))
      case Raised(e) =>
      case Ok(content) =>
        SentinelFlagged(NothingFetched);
    }
  }

  lemma RankNotNothingFetched(t: SummaryTemplate, reranker: Option<Reranker>, topK: int, summarise: Summariser,
                              query: string, unique: seq<string>)
    ensures Rank(t, reranker, topK, summarise, query, unique).result != Ok(NothingFetched)
  {
    match reranker
    case None =>
      SummaryNotNothingFetched(t, summarise, query, PyPrefix(unique, topK));
    case Some(rerank) =>
      match rerank(query, unique)
      case Raised(e) =>
      case Ok(results) =>
        SummaryNotNothingFetched(t, summarise, query, PyPrefix(results, topK));
  }

  /** The first sentinel is the reply exactly when every retriever raised or returned
      nothing; the reranker and the model are then not called and failure is recorded. */
  lemma NothingFetchedReply(t: SummaryTemplate, domains: seq<Domain>, reranker: Option<Reranker>, topK: int,
                            summarise: Summariser, query: string)
    ensures var r := Process(t, domains, reranker, topK, summarise, query);
      && (r.result == Ok(NothingFetched) <==> forall k :: 0 <= k < |domains| ==> Collected(domains[k], query) == [])
      && (r.result == Ok(NothingFetched) ==>
            r.success == Some(false) && !r.reranked && !r.summarised
            && r.log == Opening(query) + FetchLog(domains, query))
  {
    FetchedEmpty(domains, query);
    var docs := Fetched(domains, query);
    if docs != [] {
      RankNotNothingFetched(t, reranker, topK, summarise, query, Dedup(docs));
    }
  }

  /** At most topK passages reach the model when topK is not negative. */
  lemma PassageBound(t: SummaryTemplate, domains: seq<Domain>, reranker: Option<Reranker>, topK: int,
                     summarise: Summariser, query: string)
    requires topK >= 0
    ensures |Process(t, domains, reranker, topK, summarise, query).passages| <= topK
  {
    var docs := Fetched(domains, query);
    if docs != [] {
      var unique := Dedup(docs);
      match reranker
      case None =>
        SummaryConsistent(t, summarise, query, PyPrefix(unique, topK));
      case Some(rerank) =>
        match rerank(query, unique)
        case Raised(e) =>
        case Ok(results) =>
          SummaryConsistent(t, summarise, query, PyPrefix(results, topK));
    }
  }

  /** Without a reranker the passages are the first topK distinct fetched texts, each
      once, in the order they were first fetched. */
  lemma FallbackPassages(t: SummaryTemplate, domains: seq<Domain>, topK: int, summarise: Summariser, query: string)
    requires Fetched(domains, query) != []
    ensures var r := Process(t, domains, None, topK, summarise, query);
      && r.passages == PyPrefix(Dedup(Fetched(domains, query)), topK)
      && !r.reranked
      && (forall i, j :: 0 <= i < j < |r.passages| ==> r.passages[i] != r.passages[j])
      && (forall x :: x in r.passages ==> x in Fetched(domains, query))
      && r.log[|Opening(query) + FetchLog(domains, query)| + 1] == LogEntry("warning", Str(NoRerankerWarning))
  {
    var docs := Fetched(domains, query);
    var top := PyPrefix(Dedup(docs), topK);
    SummaryConsistent(t, summarise, query, top);
    assert forall x :: x in top ==> x in Dedup(docs);
  }

  /** With a reranker that answers, the passages are the first topK texts it ranked; if
      it raises, the exception goes through before the model is called and no outcome
      is recorded. */
  lemma RerankedPassages(t: SummaryTemplate, domains: seq<Domain>, rerank: Reranker, topK: int,
                         summarise: Summariser, query: string)
    requires Fetched(domains, query) != []
    ensures var r := Process(t, domains, Some(rerank), topK, summarise, query);
      && r.reranked
      && match rerank(query, Dedup(Fetched(domains, query)))
         case Ok(results) => r.passages == PyPrefix(results, topK)
         case Raised(e) => r.result == Raised(e) && r.success.None? && !r.summarised
  {
    var unique := Dedup(Fetched(domains, query));
    match rerank(query, unique)
    case Raised(e) =>
    case Ok(results) =>
      SummaryConsistent(t, summarise, query, PyPrefix(results, topK));
  }

  /** The second sentinel is the reply exactly when something was fetched but no
      passage was selected (and the reranker, if any, answered); the model is then not called. */
  lemma NothingRelevantReply(t: SummaryTemplate, domains: seq<Domain>, reranker: Option<Reranker>, topK: int,
                             summarise: Summariser, query: string)
    ensures var r := Process(t, domains, reranker, topK, summarise, query);
      r.result == Ok(NothingRelevant) <==> Fetched(domains, query) != [] && r.passages == [] && r.result.Ok?
  {
    ProcessConsistent(t, domains, reranker, topK, summarise, query);
    SentinelFlagged(NothingRelevant);
    SentinelsDiffer();
    var docs := Fetched(domains, query);
    if docs != [] {
      var unique := Dedup(docs);
      match reranker
      case None =>
        SummaryConsistent(t, summarise, query, PyPrefix(unique, topK));
      case Some(rerank) =>
        match rerank(query, unique)
        case Raised(e) =>
        case Ok(results) =>
          SummaryConsistent(t, summarise, query, PyPrefix(results, topK));
    }
  }

  /** When the model is called, it is asked with the prompt around the selected passages
      joined by the separator, and its stripped reply decides the outcome: "nothing
      found" if it mentions the marker in any case, otherwise the reply itself, logged. */
  lemma SummaryReply(t: SummaryTemplate, domains: seq<Domain>, reranker: Option<Reranker>, topK: int,
                     summarise: Summariser, query: string)
    ensures var r := Process(t, domains, reranker, topK, summarise, query);
      r.summarised ==>
        match summarise(SummaryPrompt(t, query, Join(Separator, r.passages)))
        case Raised(e) => r.result == Raised(e) && r.success.None?
        case Ok(content) =>
          if Contains(Lower(Strip(content)), NoInfoProbe) then r.result == Ok(NoInfo) && r.success == Some(false)
          else r.result == Ok(Strip(content)) && r.success == Some(true)
  {
    var docs := Fetched(domains, query);
    if docs != [] {
      var unique := Dedup(docs);
      match reranker
      case None =>
        SummaryConsistent(t, summarise, query, PyPrefix(unique, topK));
      case Some(rerank) =>
        match rerank(query, unique)
        case Raised(e) =>
        case Ok(results) =>
          SummaryConsistent(t, summarise, query, PyPrefix(results, topK));
    }
  }

  /** The prompt holds every selected passage after the fixed head and the query. */
  lemma PromptHoldsPassage(t: SummaryTemplate, query: string, top: seq<string>, i: nat)
    requires i < |top|
    ensures HasAt(SummaryPrompt(t, query, Join(Separator, top)),
                  |t.head| + |query| + |t.middle| + Offset(Separator, top, i), top[i])
  {
    var pre, context := t.head + query + t.middle, Join(Separator, top);
    assert SummaryPrompt(t, query, context) == pre + context + t.tail;
    assert |pre| == |t.head| + |query| + |t.middle|;
    JoinPartAt(Separator, top, i);
    HasAtWithin(pre, context, t.tail, Offset(Separator, top, i), top[i]);
  }

  /** In the prompt, the separator follows every selected passage but the last. */
  lemma PromptSeparatesPassages(t: SummaryTemplate, query: string, top: seq<string>, i: nat)
    requires i + 1 < |top|
    ensures HasAt(SummaryPrompt(t, query, Join(Separator, top)),
                  |t.head| + |query| + |t.middle| + Offset(Separator, top, i) + |top[i]|, Separator)
  {
    var pre, context := t.head + query + t.middle, Join(Separator, top);
    assert SummaryPrompt(t, query, context) == pre + context + t.tail;
    assert |pre| == |t.head| + |query| + |t.middle|;
    JoinSepAt(Separator, top, i);
    HasAtWithin(pre, context, t.tail, Offset(Separator, top, i) + |top[i]|, Separator);
  }

  // ---------------------------------------------------------------------------
  // The agent

  class RetrievalAgent {
    const template: SummaryTemplate
    const domains: seq<Domain>
    const reranker: Option<Reranker>
    const topK: int
    var logHistory: seq<LogEntry>
    var reflection: string

    /** `rankerSetup` is what constructing the reranker came to: a reranker, or the
        exception that makes the agent go on without one. */
    constructor (domains: seq<Domain>, rankerSetup: Outcome<Reranker>, topK: int)
      ensures template == SummaryPromptText
      ensures this.domains == domains && this.topK == topK
      ensures reranker == (if rankerSetup.Ok? then Some(rankerSetup.value) else None)
      ensures logHistory == [] && reflection == ""
    {
      template := SummaryPromptText;
      this.domains := domains;
      this.topK := topK;
      reranker := if rankerSetup.Ok? then Some(rankerSetup.value) else None;
      logHistory := [];
      reflection := "";
    }

    /** `log(role, content)`. */
    method Log(role: string, content: LogContent)
      modifies this`logHistory
      ensures logHistory == old(logHistory) + [LogEntry(role, content)]
    {
      logHistory := logHistory + [LogEntry(role, content)];
    }

    /** `update_reflection(success)`. */
    method UpdateReflection(success: bool)
      modifies this`reflection
      ensures reflection == old(reflection) + Sentence(success)
    {
      if success {
        reflection := reflection + SuccessSentence;
      } else {
        reflection := reflection + FailureSentence;
      }
    }

    /** The fetch loop of `process_request`: every domain in turn, skipping those whose
        retriever raises. */
    method FetchAll(query: string) returns (allDocs: seq<string>)
      modifies this`logHistory
      ensures allDocs == Fetched(domains, query)
      ensures logHistory == old(logHistory) + FetchLog(domains, query)
    {
      allDocs := [];
      for i := 0 to |domains|
        invariant allDocs == Fetched(domains[..i], query)
        invariant logHistory == old(logHistory) + FetchLog(domains[..i], query)
      {
        var domain := domains[i];
        var retrieved := domain.retriever(FetchK, query);
        ghost var before := logHistory;
        if retrieved.Raised? {
          Log("error", Str(RetrieveError(domain.name, retrieved.message)));
        } else if retrieved.value != [] {
          Log(RetrievedRole(|retrieved.value|, domain.name), Texts(retrieved.value));
          allDocs := allDocs + retrieved.value;
        }
        assert domains[..i + 1][..i] == domains[..i];
        assert logHistory == before + FetchEntries(domain, query);
      }
      assert domains[..|domains|] == domains;
    }

    /** The summary step of `process_request`. */
    method Summarise(query: string, top: seq<string>, summarise: Summariser) returns (reply: Outcome<string>)
      modifies this`logHistory, this`reflection
      ensures var r := Summary(template, summarise, query, top);
        && reply == r.result && logHistory == old(logHistory) + r.log
        && reflection == old(reflection) + Reflected(r.success)
    {
      if top == [] {
        UpdateReflection(false);
        return Ok(NothingRelevant);
      }
      var context := Join(Separator, top);
      var summaryResponse := summarise(SummaryPrompt(template, query, context));
      if summaryResponse.Raised? {
        return Raised(summaryResponse.message);
      }
      var summary := Strip(summaryResponse.value);
      if Contains(Lower(summary), NoInfoProbe) {
        UpdateReflection(false);
        return Ok(NoInfo);
      }
      Log("ra_summary", Str(summary));
      UpdateReflection(true);
      return Ok(summary);
    }

    /** The ranking and summary steps of `process_request`. */
    method RankAndSummarise(query: string, unique: seq<string>, summarise: Summariser) returns (reply: Outcome<string>)
      modifies this`logHistory, this`reflection
      ensures var r := Rank(template, reranker, topK, summarise, query, unique);
        && reply == r.result && logHistory == old(logHistory) + r.log
        && reflection == old(reflection) + Reflected(r.success)
    {
      ghost var whole := Rank(template, reranker, topK, summarise, query, unique);
      ghost var start := logHistory;
      ghost var entry: LogEntry;
      var topDocs: seq<string>;
      if reranker.Some? {
        var rerankedResults := reranker.value(query, unique);
        if rerankedResults.Raised? {
          assert whole == Run(Raised(rerankedResults.message), [], [], None, true, false);
          return Raised(rerankedResults.message);
        }
        topDocs := PyPrefix(rerankedResults.value, topK);
        entry := LogEntry("reranked_top_docs_content", Texts(topDocs));
        Log("reranked_top_docs_content", Texts(topDocs));
      } else {
        entry := LogEntry("warning", Str(NoRerankerWarning));
        Log("warning", Str(NoRerankerWarning));
        topDocs := PyPrefix(unique, topK);
      }
      reply := Summarise(query, topDocs, summarise);
      ghost var rest := Summary(template, summarise, query, topDocs);
      assert whole.result == rest.result && whole.success == rest.success && whole.log == [entry] + rest.log;
      assert logHistory == (start + [entry]) + rest.log;
      LogsCompose(start, [entry], rest.log);
    }

    /** What `process_request` does once the passages are fetched. */
    method Conclude(query: string, allDocs: seq<string>, summarise: Summariser) returns (reply: Outcome<string>)
      modifies this`logHistory, this`reflection
      ensures var r := AfterFetch(template, reranker, topK, summarise, query, allDocs);
        && reply == r.result && logHistory == old(logHistory) + r.log
        && reflection == old(reflection) + Reflected(r.success)
    {
      ghost var whole := AfterFetch(template, reranker, topK, summarise, query, allDocs);
      if allDocs == [] {
        assert whole == Run(Ok(NothingFetched), [], [], Some(false), false, false);
        UpdateReflection(false);
        return Ok(NothingFetched);
      }
      var uniqueDocs := Dedup(allDocs);
      ghost var start := logHistory;
      ghost var count := [LogEntry("initial_unique_docs_count", Count(|uniqueDocs|))];
      Log("initial_unique_docs_count", Count(|uniqueDocs|));
      reply := RankAndSummarise(query, uniqueDocs, summarise);
      ghost var rest := Rank(template, reranker, topK, summarise, query, uniqueDocs);
      assert whole == rest.(log := count + rest.log);
      assert logHistory == (start + count) + rest.log;
      LogsCompose(start, count, rest.log);
    }

    /** `process_request(query)`: returns the reply's content, or lets the exception of
        the reranker or the language model through. */
    method ProcessRequest(query: string, summarise: Summariser) returns (reply: Outcome<string>)
      modifies this`logHistory, this`reflection
      ensures var r := Process(template, domains, reranker, topK, summarise, query);
        && reply == r.result && logHistory == old(logHistory) + r.log
        && reflection == old(reflection) + Reflected(r.success)
    {
      ghost var start := logHistory;
      Log("ca_message", Str(query));
      Log("ra_thought", Str(FetchThought(query)));
      assert logHistory == start + Opening(query);
      var allDocs := FetchAll(query);
      ghost var opening := Opening(query) + FetchLog(domains, query);
      LogsCompose(start, Opening(query), FetchLog(domains, query));
      assert logHistory == start + opening;
      reply := Conclude(query, allDocs, summarise);
      ghost var rest := AfterFetch(template, reranker, topK, summarise, query, allDocs).log;
      assert logHistory == (start + opening) + rest;
      assert allDocs == Fetched(domains, query);
      ghost var whole := Process(template, domains, reranker, topK, summarise, query);
      ghost var af := AfterFetch(template, reranker, topK, summarise, query, allDocs);
      assert whole == af.(log := opening + af.log);
      LogsCompose(start, opening, rest);
    }
  }
}
