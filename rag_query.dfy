/**
 * Retrieval post-processing, prompt construction and the answer pipeline.
 * The vector store's search and the generative model are function
 * parameters; how the store ranks results and what the model writes are not
 * modelled.
 */
module RagQuery {
  import opened Wrappers
  import opened Text
  import opened JsonValue
  import opened Lists

  /**
   * `DEFAULT_TOP_K`, the `k` used when the caller gives none, and `MAX_TOP_K`,
   * with the values the docstring of `query_top_k_tickets` states.
   */
  const DefaultTopK: int := 5
  const MaxTopK: int := 10

  /**
   * The raw answer of `collection.query`: each column holds one row per query
   * text, and is `None` when the key is missing or holds `None`.
   */
  datatype StoreResponse = StoreResponse(
    ids: Option<seq<seq<string>>>,
    metadatas: Option<seq<seq<Option<Dict>>>>,
    documents: Option<seq<seq<string>>>,
    distances: Option<seq<seq<real>>>)

  /** `column[0][idx]`, or `None` where Python raises (no column, no row, index out of range). */
  function Cell<T>(column: Option<seq<seq<T>>>, idx: nat): Option<T>
  {
    if column.None? || column.value == [] || idx >= |column.value[0]| then None
    else Some(column.value[0][idx])
  }

  /** `results["ids"][0]`, empty when the store returned no ids at all. */
  function ResultIds(response: StoreResponse): seq<string>
  {
    if response.ids.None? || response.ids.value == [] then [] else response.ids.value[0]
  }

  /** One formatted result: `(ticket_id, subject, snippet, resolution, score)`. */
  datatype RetrievedTicket = RetrievedTicket(ticketId: Json, subject: Json, snippet: string, resolution: Json, score: real)

  /** `max(0.0, 1.0 - distance)`: never negative, at most 1 for a non-negative distance. */
  function Score(distance: real): (s: real)
    ensures s >= 0.0
    ensures distance >= 0.0 ==> s <= 1.0
    ensures s > 0.0 <==> distance < 1.0
    ensures s > 0.0 ==> s == 1.0 - distance
  {
    if 1.0 - distance > 0.0 then 1.0 - distance else 0.0
  }

  /** Formatting the result at `idx`; `None` where the per-entry `try` catches an exception. */
  function FormatEntry(response: StoreResponse, idx: nat): Option<RetrievedTicket>
  {
    var metadata := Cell(response.metadatas, idx);
    var snippet := Cell(response.documents, idx);
    var distance := Cell(response.distances, idx);
    if metadata.None? || metadata.value.None? || snippet.None? || distance.None? then None
    else
      var m := metadata.value.value;
      Some(RetrievedTicket(
        Get(m, "ticketId", JStr("unknown")),
        Get(m, "ticketSubject", JStr("No subject")),
        snippet.value,
        Get(m, "ticketResolution", JStr("No resolution available")),
        Score(distance.value)))
  }

  /** The outcome of formatting each returned entry, in the store's order. */
  function Attempts(response: StoreResponse): (r: seq<Option<RetrievedTicket>>)
    ensures |r| == |ResultIds(response)|
    ensures forall i :: 0 <= i < |r| ==> r[i] == FormatEntry(response, i)
  {
    seq(|ResultIds(response)|, i requires 0 <= i => FormatEntry(response, i))
  }

  /** Keeps the entries that formatted. */
  function Present(attempt: Option<RetrievedTicket>): Option<RetrievedTicket>
  {
    attempt
  }

  /** The formatted results: one attempt per returned id, in the store's order, failures skipped. */
  function Formatted(response: StoreResponse): seq<RetrievedTicket>
  {
    FilterMap(Attempts(response), Present)
  }

  /**
   * There is at most one result per returned id; every result is the
   * formatting of some returned entry; and when every entry formats, the
   * i-th result is the i-th entry's.
   */
  lemma FormattedInStoreOrder(response: StoreResponse)
    ensures |Formatted(response)| <= |ResultIds(response)|
    ensures forall j :: 0 <= j < |Formatted(response)| ==>
      exists i :: 0 <= i < |ResultIds(response)| && FormatEntry(response, i) == Some(Formatted(response)[j])
    ensures (forall i :: 0 <= i < |ResultIds(response)| ==> FormatEntry(response, i).Some?) ==>
      |Formatted(response)| == |ResultIds(response)| &&
      forall i :: 0 <= i < |ResultIds(response)| ==> Formatted(response)[i] == FormatEntry(response, i).value
  {
    var attempts := Attempts(response);
    forall j | 0 <= j < |Formatted(response)|
      ensures exists i :: 0 <= i < |ResultIds(response)| && FormatEntry(response, i) == Some(Formatted(response)[j])
    {
      FilterMapSource(attempts, Present, j);
    }
    FilterMapKeepsAll(attempts, Present);
  }

  /** An entry that fails to format is dropped and the results before and after it are unaffected. */
  lemma FailedEntryDropped(response: StoreResponse, k: nat)
    requires k < |ResultIds(response)| && FormatEntry(response, k).None?
    ensures Formatted(response) == FilterMap(Attempts(response)[..k], Present) + FilterMap(Attempts(response)[k + 1..], Present)
  {
    var attempts := Attempts(response);
    assert attempts == attempts[..k] + [attempts[k]] + attempts[k + 1..];
    FilterMapAppend(attempts[..k] + [attempts[k]], attempts[k + 1..], Present);
    FilterMapAppend(attempts[..k], [attempts[k]], Present);
  }

  /** A store answer with no ids, or a store that raised, yields no results. */
  function Retrieved(response: Option<StoreResponse>): seq<RetrievedTicket>
  {
    if response.None? || ResultIds(response.value) == [] then [] else Formatted(response.value)
  }

  /** `min(k, MAX_TOP_K)` */
  function CappedK(k: int): (r: int)
    ensures r <= MaxTopK && (r == k || r == MaxTopK)
    ensures k <= MaxTopK ==> r == k
  {
    if k > MaxTopK then MaxTopK else k
  }

  /** What `query_top_k_tickets` returns, where `search` stands for the store's query. */
  function RetrieveSpec(query: string, k: int, search: (string, int) -> Option<StoreResponse>): seq<RetrievedTicket>
  {
    if IsBlank(query) then [] else Retrieved(search(Strip(query), CappedK(k)))
  }

  /**
   * `query_top_k_tickets`. `search(text, n)` is the store's answer to a
   * query for `n` results (`None` if opening the collection or the query
   * raised). A blank query returns nothing and never reaches the store;
   * otherwise the store is asked once, with the stripped query and `k`
   * capped at `MaxTopK`. `request` records that call.
   */
  method QueryTopKTickets(query: string, search: (string, int) -> Option<StoreResponse>, k: int := DefaultTopK)
    returns (results: seq<RetrievedTicket>, ghost request: Option<(string, int)>)
    ensures IsBlank(query) ==> results == [] && request == None
    ensures !IsBlank(query) ==> request == Some((Strip(query), CappedK(k)))
    ensures results == RetrieveSpec(query, k, search)
  {
    var n := k;
    if n > MaxTopK {
      n := MaxTopK;
    }
    if query == [] || Strip(query) == [] {
      return [], None;
    }
    request := Some((Strip(query), n));
    var response := search(Strip(query), n);
    if response.None? || response.value.ids.None? || response.value.ids.value == [] || response.value.ids.value[0] == [] {
      return [], request;
    }
    var r := response.value;
    var count := |r.ids.value[0]|;
    results := [];
    for idx := 0 to count
      invariant results == FilterMap(Attempts(r)[..idx], Present)
    {
      FilterMapStep(Attempts(r), Present, idx);
      var entry := FormatEntry(r, idx);
      if entry.None? {
        continue;
      }
      results := results + [entry.value];
    }
    assert Attempts(r)[..count] == Attempts(r);
  }

  const FallbackLead: string := "You are a helpful customer support assistant. The user has asked: \""
  const FallbackTail: string :=
    "\"\n\nUnfortunately, I couldn't find any relevant historical support tickets to answer this question. "
    + "Please provide a helpful response based on general support knowledge, and suggest that the user "
    + "contact support directly for more specific assistance.\n\nAnswer:"

  const Guidelines: string :=
    "You are an expert customer support assistant with access to a comprehensive knowledge base of "
    + "historical support tickets. Your role is to provide accurate, helpful, and actionable answers based "
    + "on how similar issues have been resolved in the past.\n\n"
    + "IMPORTANT GUIDELINES:\n"
    + "- Provide a direct, helpful answer to the user's question\n"
    + "- Base your response primarily on the ticket resolutions provided below\n"
    + "- If the context doesn't contain enough information, supplement with general support knowledge\n"
    + "- Be concise but thorough in your explanations\n"
    + "- Include actionable steps when applicable\n"
    + "- Do NOT mention ticket IDs, scores, or refer to \"the context below\"\n"
    + "- Write as if you're directly answering the customer\n\n"

  const ResponseFooter: string := "\n## Your Response:\n"

  /** `"=" * 50` and `"-" * 30`, the rules under the case header and after each case. */
  const CasesRule: string := "=================================================="
  const CaseRule: string := "------------------------------"

  /** The question section. */
  function QuestionLine(query: string): string
  {
    "## User Question:\n" + query + "\n\n"
  }

  /** The header of the case list. */
  function CasesHeader(): string
  {
    "## Relevant Support Cases:\n" + CasesRule + "\n"
  }

  /** `snippet[:200]` followed by "..." when the snippet is longer than 200 characters. */
  function Description(snippet: string): string
  {
    Prefix(snippet, 200) + if |snippet| > 200 then "..." else ""
  }

  /** The truncation rule: short snippets are kept whole, long ones cut to 200 characters and marked. */
  lemma DescriptionRule(snippet: string)
    ensures |snippet| <= 200 ==> Description(snippet) == snippet
    ensures |snippet| > 200 ==> Description(snippet) == snippet[..200] + "..."
    ensures |Description(snippet)| <= 203
  {
  }

  /**
   * The block for one ticket. `percent` stands for the `{score:.1%}`
   * rendering, which is not modelled. The ticket id is not used.
   */
  function CaseBlock(t: RetrievedTicket, percent: real -> string): string
  {
    SubjectLine(t) + DescriptionLine(t) + ResolutionLine(t) + RelevanceLine(t, percent) + CaseRule + "\n"
  }

  function SubjectLine(t: RetrievedTicket): string
  {
    "Case: " + Str(t.subject) + "\n"
  }

  function DescriptionLine(t: RetrievedTicket): string
  {
    "Description: " + Description(t.snippet) + "\n"
  }

  function ResolutionLine(t: RetrievedTicket): string
  {
    "Resolution: " + Str(t.resolution) + "\n"
  }

  function RelevanceLine(t: RetrievedTicket, percent: real -> string): string
  {
    "Relevance: " + percent(t.score) + "\n"
  }

  function CaseBlockWith(percent: real -> string): RetrievedTicket -> string
  {
    t => CaseBlock(t, percent)
  }

  /** The case blocks of `tickets`, one per ticket, in order. */
  function CaseBlocks(tickets: seq<RetrievedTicket>, percent: real -> string): string
  {
    ConcatMap(tickets, CaseBlockWith(percent))
  }

  /** `build_rag_prompt`'s result. */
  function RagPrompt(query: string, tickets: seq<RetrievedTicket>, percent: real -> string): string
  {
    if tickets == [] then FallbackLead + query + FallbackTail
    else Guidelines + QuestionLine(query) + CasesHeader() + CaseBlocks(tickets, percent) + ResponseFooter
  }

  /** The case blocks, and so the prompt, do not depend on the tickets' ids. */
  lemma {:induction false} CaseBlocksIgnoreIds(ts: seq<RetrievedTicket>, us: seq<RetrievedTicket>, percent: real -> string)
    requires |ts| == |us|
    requires forall i :: 0 <= i < |ts| ==> us[i] == ts[i].(ticketId := us[i].ticketId)
    ensures CaseBlocks(ts, percent) == CaseBlocks(us, percent)
  {
    if ts != [] {
      var n := |ts| - 1;
      CaseBlocksIgnoreIds(ts[..n], us[..n], percent);
      assert CaseBlock(ts[n], percent) == CaseBlock(us[n], percent);
    }
  }

  /** Tickets that differ only in their ids give the same prompt: no id is ever emitted. */
  lemma PromptIgnoresIds(query: string, ts: seq<RetrievedTicket>, us: seq<RetrievedTicket>, percent: real -> string)
    requires |ts| == |us|
    requires forall i :: 0 <= i < |ts| ==> us[i] == ts[i].(ticketId := us[i].ticketId)
    ensures RagPrompt(query, ts, percent) == RagPrompt(query, us, percent)
  {
    CaseBlocksIgnoreIds(ts, us, percent);
  }

  /**
   * With tickets, the prompt opens with the guidelines and the question and
   * ends with the response header; with none, it is the fallback prompt,
   * which holds the question between its two fixed parts.
   */
  lemma PromptShape(query: string, tickets: seq<RetrievedTicket>, percent: real -> string)
    ensures tickets == [] ==>
      StartsWith(RagPrompt(query, tickets, percent), FallbackLead + query) &&
      EndsWith(RagPrompt(query, tickets, percent), FallbackTail)
    ensures tickets != [] ==>
      StartsWith(RagPrompt(query, tickets, percent), Guidelines + QuestionLine(query)) &&
      EndsWith(RagPrompt(query, tickets, percent), ResponseFooter)
  {
    if tickets == [] {
      Framed(FallbackLead + query, [], FallbackTail);
      assert FallbackLead + query + [] == FallbackLead + query;
    } else {
      var head := Guidelines + QuestionLine(query);
      var blocks := CaseBlocks(tickets, percent);
      AppendAssoc(head, CasesHeader(), blocks);
      Framed(head, CasesHeader() + blocks, ResponseFooter);
    }
  }

  /** `build_rag_prompt`: the guidelines, the question, then one case block per ticket. */
  method BuildRagPrompt(query: string, tickets: seq<RetrievedTicket>, percent: real -> string) returns (prompt: string)
    ensures prompt == RagPrompt(query, tickets, percent)
  {
    if tickets == [] {
      return FallbackLead + query + FallbackTail;
    }
    prompt := Guidelines;
    prompt := prompt + QuestionLine(query);
    prompt := prompt + CasesHeader();
    ghost var head := prompt;
    for i := 0 to |tickets|
      invariant prompt == head + CaseBlocks(tickets[..i], percent)
    {
      assert tickets[..i + 1][..i] == tickets[..i];
      assert CaseBlocks(tickets[..i + 1], percent) == CaseBlocks(tickets[..i], percent) + CaseBlock(tickets[i], percent);
      AppendAssoc(head, CaseBlocks(tickets[..i], percent), CaseBlock(tickets[i], percent));
      prompt := prompt + CaseBlock(tickets[i], percent);
    }
    assert tickets[..|tickets|] == tickets;
    prompt := prompt + ResponseFooter;
  }

  /** What the generative model's call produced. */
  datatype Reply = Reply(text: string) | NoResponse | Raised(message: string)

  const NoTicketsMessage: string :=
    "I couldn't find any relevant support tickets to answer your question. "
    + "This might be a new type of issue. Please contact our support team directly "
    + "for personalized assistance."

  const NotConfiguredMessage: string := "Error: AI service is not properly configured. Please contact support."

  const EmptyReplyMessage: string :=
    "I apologize, but I'm having trouble generating a response right now. "
    + "Please try rephrasing your question or contact support directly."

  function ErrorMessage(message: string): string
  {
    "I encountered an error while processing your question. "
    + "Please try again or contact our support team for assistance. "
    + "Error: " + message
  }

  /**
   * The answer made of the model's reply: its stripped text, a fixed apology
   * when there is no text, and the error message when the call raised.
   */
  function AnswerFrom(reply: Reply): string
  {
    match reply
    case Reply(text) => if text == [] then EmptyReplyMessage else Strip(text)
    case NoResponse => EmptyReplyMessage
    case Raised(message) => ErrorMessage(message)
  }

  /**
   * The answer is empty exactly when the model replied with text made only of
   * whitespace: such a reply passes the emptiness test and strips to nothing.
   */
  lemma AnswerEmptyIff(reply: Reply)
    ensures AnswerFrom(reply) == [] <==> reply.Reply? && reply.text != [] && IsBlank(reply.text)
  {
  }

  /**
   * `resolve_query`. `apiKeyConfigured` stands for `GOOGLE_API_KEY` being
   * set and `generate` for the model call; `sent` records the prompt given to
   * the model. When retrieval finds nothing the fixed message is returned and
   * no prompt is built or sent.
   */
  method ResolveQuery(query: string, search: (string, int) -> Option<StoreResponse>,
                      apiKeyConfigured: bool, generate: string -> Reply, percent: real -> string,
                      k: int := DefaultTopK)
    returns (answer: string, ghost sent: Option<string>)
    ensures RetrieveSpec(query, k, search) == [] ==> answer == NoTicketsMessage && sent == None
    ensures RetrieveSpec(query, k, search) != [] && !apiKeyConfigured ==>
      answer == NotConfiguredMessage && sent == None
    ensures RetrieveSpec(query, k, search) != [] && apiKeyConfigured ==>
      sent == Some(RagPrompt(query, RetrieveSpec(query, k, search), percent)) && answer == AnswerFrom(generate(sent.value))
  {
    var tickets, _ := QueryTopKTickets(query, search, k);
    if tickets == [] {
      return NoTicketsMessage, None;
    }
    var prompt := BuildRagPrompt(query, tickets, percent);
    if !apiKeyConfigured {
      return NotConfiguredMessage, None;
    }
    sent := Some(prompt);
    var reply := generate(prompt);
    answer := AnswerFrom(reply);
  }
}
