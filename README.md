# Customer-support RAG assistant: a Dafny model of its backend core

This project models the retrieval-augmented answering pipeline of the
customer-support assistant backend:

- **Ticket loading** (`backend/src/data_loader.py`). The JSON ticket file, once parsed, is checked to be a list. Each record is validated: it must be a dictionary whose `id`, `subject` and `body` are present, truthy and not blank. The valid records are kept in order. The module also provides a prefix sample and per-status and per-priority counts.
- **Embedding** (`backend/src/embeddings.py`). The text embedded for each ticket is `subject\n\nbody`, stripped, and blank texts are skipped. A blank query is refused. The sentence-embedding model is loaded at most once and then cached (the class `EmbeddingService`).
- **Indexing** (`backend/src/chroma_index.py`). One id, document and metadata record is built per ticket, and a ticket without an id gets a synthetic one. The batch is upserted into the vector-store collection (the class `Collection`, whose entries form a map from id to entry). Tickets are indexed only when the collection is empty. The module also reports collection statistics.
- **Querying** (`backend/src/rag_query.py`). `k` is capped at 10, and a blank query returns nothing. Each entry the store returns is turned into `(ticket_id, subject, snippet, resolution, score)` with `score = max(0, 1 - distance)`, and an entry that fails is skipped. The prompt holds the guidelines, the question and one case block per ticket; with no tickets a fallback prompt is used. The answer pipeline returns a fixed message when nothing is found or the API key is missing. Otherwise it returns the model's stripped reply, a fixed apology when the reply is empty, or an error message when the call raises.

Files:

- `wrappers.dfy`: `Option` and `Result`.
- `lists.dfy`: the generic order-preserving filter and concatenation, with their lemmas.
- `text.dfy`: Python's `str.isspace`, `strip`, `str(int)` and slicing.
- `json_value.dfy`: a parsed JSON value, with Python truthiness and `str()`.
- `data_loader.dfy`, `embeddings.dfy`, `chroma_index.dfy` and `rag_query.dfy`: one file per source module.

The vector store's search, the sentence encoder and the generative model are
parameters: their results are inputs to the model, not computed by it.

## Model

| member | source | states |
|---|---|---|
| DataLoader.ValidTicketIff | backend/src/data_loader.py:83-119 | a record is accepted exactly when it is a dictionary whose `id`, `subject` and `body` are present, truthy, and not blank when they are strings; the id re-check rejects nothing more, and an accepted id strips to non-empty text |
| DataLoader.IsValidTicket | backend/src/data_loader.py:83-119 | the record check as written: a dictionary whose `id`, `subject` and `body` are each present, truthy and of non-blank `str()`, and whose `str(id)` is again non-blank |
| DataLoader.FieldOkIff | backend/src/data_loader.py:99-107 | the per-field test (present, truthy, `str(v).strip()` non-empty) equals "present, truthy, and not blank if a string" |
| DataLoader.AllKeptValid | backend/src/data_loader.py:64-67 | every ticket the filter keeps passed validation |
| DataLoader.ValidTicketsMultiplicity | backend/src/data_loader.py:64-67 | the filter neither duplicates nor invents tickets: each dictionary occurs in the result as often as it occurs, valid, in the input |
| DataLoader.LoadOutcomes | backend/src/data_loader.py:55-81 | a non-list is an error; an empty list loads no tickets; a non-empty list with no valid record is an error; otherwise the result is the valid tickets in order |
| DataLoader.Load | backend/src/data_loader.py:55-74 | the outcome of loading a parsed file: `NotAList` for a non-list, no tickets for an empty list, `NoValidTickets` when no record is valid, else the valid records in order |
| DataLoader.LoadAllTickets | backend/src/data_loader.py:21-81 | the validating loop returns exactly the outcome `Load` specifies |
| DataLoader.PySliceTo | backend/src/data_loader.py:133 | Python's `s[:m]` is a prefix of `s`, for negative `m` too |
| DataLoader.GetTicketSample | backend/src/data_loader.py:121-136 | the sample is a prefix of the loaded tickets, of length `min(n, len)` for `n >= 0` and `len + n` (at least 0) for negative `n`; no tickets when loading fails; `n` defaults to 5 |
| DataLoader.HashKey | backend/src/data_loader.py:153-157 | the dictionary key a status or priority value is: `None`, a boolean, an integer or a string as given, and no key for a list or a dictionary, which Python cannot hash |
| DataLoader.KeyOf | backend/src/data_loader.py:153-154 | the key a ticket is counted under: `ticket.get(field, "unknown")` |
| DataLoader.Lookup | backend/src/data_loader.py:156-157 | `counts.get(k, 0)`: the count of the entry whose key equals `k` under Python's `==`, or 0 |
| DataLoader.HasKey | backend/src/data_loader.py:156-157 | `k in counts`: some entry's key equals `k` under Python's `==` |
| DataLoader.Bump | backend/src/data_loader.py:156-157 | `counts[k] = counts.get(k, 0) + 1` on an insertion-ordered dictionary: the entry equal to `k` (with `True` equal to `1` and `False` to `0`) gains one and keeps its original key; otherwise `(k, 1)` is appended |
| DataLoader.BumpEffect | backend/src/data_loader.py:156-157 | one `counts[k] = counts.get(k, 0) + 1` raises the total and the count of every key equal to `k` by one, changes no other count, adds only `k` as a key and keeps keys distinct |
| DataLoader.BumpKeepsKeys | backend/src/data_loader.py:156-157 | an increment keeps every existing entry's key object in its place, and appends `(k, 1)` only when no key equal to `k` is present |
| DataLoader.Tally | backend/src/data_loader.py:152-157 | the counts after bumping each key in turn, starting from `{}` |
| DataLoader.TallyKeysFirstSeen | backend/src/data_loader.py:152-157 | each reported key is the first counted key equal to it, so a status `true` counted before a status `1` is reported as `True` |
| DataLoader.TrueThenOneCountedUnderTrue | backend/src/data_loader.py:152-157 | the statuses `true` then `1` give the single entry `{True: 2}` |
| DataLoader.TallyCounts | backend/src/data_loader.py:152-157 | counting a sequence of keys gives each key the number of keys equal to it under Python's `==`, holds exactly the keys equal to some counted key, no two equal, and sums to the number of keys |
| DataLoader.FieldKeys | backend/src/data_loader.py:153-154 | when every key can be hashed there is one key per ticket |
| DataLoader.FieldKeysAt | backend/src/data_loader.py:153-154 | the i-th key is the i-th ticket's `get(field, "unknown")`, and a ticket without the field is counted as `"unknown"` |
| DataLoader.Breakdowns | backend/src/data_loader.py:149-157 | what the counting loop produces: the tallies of the tickets' status keys and priority keys, or nothing when some key cannot be hashed |
| DataLoader.StatsOf | backend/src/data_loader.py:138-167 | the statistics: the load error, an error when a status or priority cannot be hashed, or the number of loaded tickets with the tallies of their status and priority keys |
| DataLoader.StatsConsistent | backend/src/data_loader.py:138-163 | the reported total is the number of loaded tickets, both breakdowns sum to it with no two keys equal, and each key's count is the number of tickets whose status (or priority) equals it |
| DataLoader.GetTicketStats | backend/src/data_loader.py:138-167 | the statistics, or the error, are those `StatsOf` specifies |
| DataLoader.CountBreakdowns | backend/src/data_loader.py:149-157 | the counting loop yields the tallies of the tickets' status and priority keys, or fails when a key cannot be hashed |
| DataLoader.BreakdownsStep | backend/src/data_loader.py:152-157 | one more ticket bumps both breakdowns by its keys, or makes the count fail |
| DataLoader.BreakdownsFailed | backend/src/data_loader.py:145-167 | an unhashable key in a prefix makes the whole count fail |
| DataLoader.UnhashableSticks | backend/src/data_loader.py:152-157 | once a prefix holds an unhashable key, so does the whole list |
| Embeddings.CombinedText | backend/src/embeddings.py:72-76 | the embedded text of a ticket: `str(subject) + "\n\n" + str(body)`, stripped, with missing fields read as `""` |
| Embeddings.Prepared | backend/src/embeddings.py:72-81 | a ticket's combined text, or nothing when that text is empty and the ticket is skipped |
| Embeddings.EmbeddingTexts | backend/src/embeddings.py:70-83 | the texts sent to the encoder: the non-empty combined texts, in ticket order |
| Embeddings.Available | backend/src/embeddings.py:34-43 | the model a call uses: the cached one if there is one, else the outcome of loading it now |
| Embeddings.Embed | backend/src/embeddings.py:64-106 | the result of embedding tickets with a given model: no vectors when no text survives, an error when a text survives and no model is available, else the encoder's vectors for the kept texts |
| Embeddings.SkippedIff | backend/src/embeddings.py:70-81 | a ticket is skipped exactly when its subject and its body (read as "" when missing) both render as blank |
| Embeddings.TextsFromTickets | backend/src/embeddings.py:70-83 | there are at most as many texts as tickets, and each text is the non-empty combined text of some ticket |
| Embeddings.EmbedCount | backend/src/embeddings.py:85-106 | with an encoder that returns one vector per text there is one embedding per kept text; the call fails exactly when some text is kept and no model can be loaded |
| Embeddings.PrepareTexts | backend/src/embeddings.py:70-83 | the loop collects exactly the non-empty combined texts, in ticket order |
| Embeddings.EmbeddingService.constructor | backend/src/embeddings.py:22-23 | the cache starts empty, with no model loaded |
| Embeddings.EmbeddingService.GetModel | backend/src/embeddings.py:25-43 | a cached model is returned and never reloaded; otherwise a successful load is cached and returned, and a failed one is an error that leaves the cache empty |
| Embeddings.EmbeddingService.GetEmbeddings | backend/src/embeddings.py:45-110 | the result is `Embed` of the tickets with the model the call obtains: one vector per non-empty text; afterwards the cache is unchanged when no text survives and otherwise holds the model used; a cached model is never reloaded |
| Embeddings.EmbeddingService.GetQueryEmbedding | backend/src/embeddings.py:112-134 | a blank query is refused without touching the model; otherwise the stripped query is encoded with the cached or newly loaded model, which the cache then holds, or the call fails when no model can be loaded; a cached model is never reloaded |
| ChromaIndex.EntryId | backend/src/chroma_index.py:111 | a ticket's stored id: `str()` of its `id`, or `ticket_<n>` with `n` the number of ids built before it |
| ChromaIndex.DocumentText | backend/src/chroma_index.py:114-116 | the stored document: subject and body joined by a blank line, with the "No subject" and "No description" defaults |
| ChromaIndex.MetadataOf | backend/src/chroma_index.py:119-126 | the stored metadata: the entry's id and the ticket's subject, resolution, status, priority and creation date, with their defaults |
| ChromaIndex.BuildEntries | backend/src/chroma_index.py:108-130 | the three lists grow in lockstep: the i-th id, document and metadata all come from the i-th ticket; a ticket without an id is named `ticket_i`; each metadata record carries its entry's id |
| ChromaIndex.SyntheticIdsDistinct | backend/src/chroma_index.py:111 | synthetic ids of different positions differ |
| ChromaIndex.ValidTicketEntry | backend/src/chroma_index.py:111-116 | a validated ticket keeps its own id (not blank), subject and body: no default applies |
| ChromaIndex.ValidTicketKept | backend/src/chroma_index.py:103 | a validated ticket is never skipped by the embedding step |
| ChromaIndex.EmbeddingsAlignWithIds | backend/src/chroma_index.py:103-148 | for validated tickets the i-th embedded text is the i-th ticket's, and there are exactly as many embeddings as ids |
| ChromaIndex.Upserted | backend/src/chroma_index.py:143-148 | the entries after an upsert: each batch id in turn inserted or replaced by its embedding, document and metadata |
| ChromaIndex.UpsertedOverride | backend/src/chroma_index.py:143-148 | an upsert overrides the old entries with the batch's, and leaves other ids as they were |
| ChromaIndex.UpsertIdempotent | backend/src/chroma_index.py:143-148 | upserting the same batch twice gives the same entries as upserting it once |
| ChromaIndex.UpsertedKeys | backend/src/chroma_index.py:143-148 | after an upsert the store holds exactly the old ids and the batch's ids |
| ChromaIndex.UpsertedLastWins | backend/src/chroma_index.py:143-148 | an id's stored entry is the batch entry at its last position |
| ChromaIndex.UpsertedKeepsOthers | backend/src/chroma_index.py:143-148 | ids outside the batch keep their entries |
| ChromaIndex.IndexOutcome | backend/src/chroma_index.py:81-154 | what indexing reports and leaves: the load error, success with nothing stored for no tickets, the embedding error, or the upsert of the batch |
| ChromaIndex.IndexedCache | backend/src/embeddings.py:85-92 | the model cache after indexing: unchanged unless some loaded ticket has text, then the cached or newly loaded model |
| ChromaIndex.IndexingSucceeds | backend/src/chroma_index.py:81-154 | for the store as modelled (no metadata validation, see "Left out"), when the tickets load and a model is available, indexing succeeds: the batch of all loaded tickets is aligned and the store becomes the old entries upserted with it (a repeated id keeps its last entry) |
| ChromaIndex.IndexedTicketStored | backend/src/chroma_index.py:108-148 | after indexing, a loaded ticket whose id no later ticket repeats is stored under that id with its own embedding, document and metadata |
| ChromaIndex.IndexingLoadsModel | backend/src/chroma_index.py:94-103 | indexing a loaded, non-empty ticket file always obtains the embedding model, since every validated ticket has text to embed |
| ChromaIndex.NoUpsertWithoutTickets | backend/src/chroma_index.py:94-97 | an unloadable or empty ticket file leaves the store unchanged, and reports success only when empty |
| ChromaIndex.Collection.constructor | backend/src/chroma_index.py:54-64 | a new collection has its name and no entries |
| ChromaIndex.Collection.Upsert | backend/src/chroma_index.py:143-148 | a misaligned batch is refused and changes nothing; an aligned one inserts or replaces each id in turn |
| ChromaIndex.Collection.Count | backend/src/chroma_index.py:66 | `collection.count()`: the number of stored ids |
| ChromaIndex.IndexAllTickets | backend/src/chroma_index.py:81-154 | the reported outcome and the new entries are those `IndexOutcome` specifies; the model cache afterwards is `IndexedCache`: a model is obtained (and then cached) only when some loaded ticket has text |
| ChromaIndex.CreateOrGetCollection | backend/src/chroma_index.py:66-73 | a non-empty collection is returned unchanged without touching the model; an empty one is indexed, with the outcome, entries and model cache of `IndexAllTickets` |
| ChromaIndex.GetCollectionStats | backend/src/chroma_index.py:157-176 | the count and name are the collection's, and the status is "healthy" exactly when it holds an entry and "empty" exactly when it holds none |
| RagQuery.Cell | backend/src/rag_query.py:72-77 | `results[column][0][idx]`, or nothing where Python raises: a missing column, an empty outer list or an index past the row |
| RagQuery.ResultIds | backend/src/rag_query.py:65-70 | `results["ids"][0]`, or no ids when the answer has no `ids` or an empty outer list |
| RagQuery.Score | backend/src/rag_query.py:80 | the score is never negative, is at most 1 for a non-negative distance, is positive exactly when the distance is below 1, and is then `1 - distance` |
| RagQuery.FormatEntry | backend/src/rag_query.py:71-88 | one returned entry formatted: its metadata's `ticketId`, `ticketSubject` and `ticketResolution` with the "unknown", "No subject" and "No resolution available" defaults, its document and its score; nothing when a column, a row, the index or the metadata is missing |
| RagQuery.Attempts | backend/src/rag_query.py:70-92 | one formatting attempt per returned id, in the store's order |
| RagQuery.FormattedInStoreOrder | backend/src/rag_query.py:70-95 | at most one result per returned id, each the formatting of some returned entry; when every entry formats, the i-th result is the i-th entry's |
| RagQuery.FailedEntryDropped | backend/src/rag_query.py:90-92 | an entry that fails to format is dropped and the results around it are unaffected |
| RagQuery.Formatted | backend/src/rag_query.py:69-95 | the formatted results: one attempt per returned id, in the store's order, with the failed attempts skipped |
| RagQuery.Retrieved | backend/src/rag_query.py:51-99 | no results when the store raised or returned no ids, else the formatted results |
| RagQuery.RetrieveSpec | backend/src/rag_query.py:43-99 | what `query_top_k_tickets` returns: nothing for a blank query, else the results of searching for the stripped query with `k` capped at 10 |
| RagQuery.CappedK | backend/src/rag_query.py:43-45 | `k` is capped at 10 and otherwise unchanged |
| RagQuery.QueryTopKTickets | backend/src/rag_query.py:28-99 | a blank query returns nothing without a search; otherwise the store is asked once, with the stripped query and the capped `k`, and the results are those `RetrieveSpec` specifies |
| RagQuery.Description | backend/src/rag_query.py:144 | the case description: the snippet's first 200 characters, followed by "..." when it is longer |
| RagQuery.CaseBlock | backend/src/rag_query.py:143-147 | one case block: the subject, description, resolution and relevance lines and a rule of 30 dashes |
| RagQuery.CaseBlocks | backend/src/rag_query.py:142-147 | the case blocks of the tickets, one per ticket, in order |
| RagQuery.RagPrompt | backend/src/rag_query.py:101-150 | the prompt: the fallback text around the question when there are no tickets, else the guidelines, the question, the case header, one block per ticket and the response header |
| RagQuery.DescriptionRule | backend/src/rag_query.py:144 | a snippet of at most 200 characters is kept whole; a longer one is cut to 200 characters followed by "..." |
| RagQuery.CaseBlocksIgnoreIds | backend/src/rag_query.py:142-147 | the case blocks do not depend on the tickets' ids |
| RagQuery.PromptIgnoresIds | backend/src/rag_query.py:101-150 | tickets that differ only in their ids give the same prompt |
| RagQuery.PromptShape | backend/src/rag_query.py:118-149 | with tickets the prompt opens with the guidelines and the question and ends with the response header; with none it is the fallback prompt around the question |
| RagQuery.BuildRagPrompt | backend/src/rag_query.py:101-150 | the prompt built step by step is `RagPrompt` |
| RagQuery.AnswerFrom | backend/src/rag_query.py:196-212 | the answer made of the model's reply: the stripped text, the fixed apology for no text, the error message when the call raised |
| RagQuery.ErrorMessage | backend/src/rag_query.py:209-212 | the reply when the pipeline raises: the fixed apology followed by `Error: ` and the exception's message |
| RagQuery.AnswerEmptyIff | backend/src/rag_query.py:201-207 | the answer is empty exactly when the model replied with non-empty, whitespace-only text |
| RagQuery.ResolveQuery | backend/src/rag_query.py:152-212 | no tickets gives the fixed message and sends no prompt; a missing API key gives the configuration message and sends none; otherwise the prompt for the retrieved tickets is sent and the answer is made of the reply |
| Lists.FilterMap | backend/src/data_loader.py:64-67 | the order-preserving filter never yields more elements than it reads |
| Lists.FilterMapStep | backend/src/data_loader.py:64-67 | filtering one more element appends what it yields, if anything |
| Lists.FilterMapAppend | backend/src/rag_query.py:70-92 | filtering a concatenation concatenates the filtered parts |
| Lists.FilterMapKeepsAll | backend/src/embeddings.py:70-83 | when every element yields a value, nothing is dropped and the i-th result is the i-th element's value |
| Lists.FilterMapEmpty | backend/src/data_loader.py:71-72 | the filter yields nothing exactly when no element yields a value |
| Lists.FilterMapSource | backend/src/data_loader.py:64-67 | every result is the value of some input element |
| Lists.FilterMapCount | backend/src/data_loader.py:64-67 | a value occurs in the result as often as its one source element occurs in the input |
| Lists.ConcatMapAppend | backend/src/rag_query.py:142-147 | the blocks of a concatenation are the blocks of its parts, in order |
| JsonValue.Truthy | backend/src/data_loader.py:105 | Python truthiness: `None`, `False`, `0`, `""`, `[]` and `{}` are false, every other value true |
| JsonValue.Str | backend/src/data_loader.py:105 | Python's `str()`: `None`, `True`, `False`, the decimal text of an integer, a string itself, and a placeholder for a list or a dictionary |
| JsonValue.Get | backend/src/data_loader.py:153-154 | `d.get(key, default)`: the key's value when present, else the default |
| JsonValue.OnlyStringsRenderBlank | backend/src/data_loader.py:105 | only a string can render as blank text |
| Text.IsSpace | backend/src/data_loader.py:105 | the characters `str.isspace` accepts: space, tab to carriage return, the separators U+001C to U+001F, and U+0085, U+00A0, U+1680, U+2000 to U+200A, U+2028, U+2029, U+202F, U+205F and U+3000 |
| Text.IsBlank | backend/src/data_loader.py:105 | `not s.strip()`: every character is white space (so the empty string is blank) |
| Text.TrimLeft | backend/src/data_loader.py:105 | `lstrip` removes a blank prefix and leaves a suffix that starts with a non-space character |
| Text.TrimRight | backend/src/data_loader.py:105 | `rstrip` removes a blank suffix and leaves a prefix that ends with a non-space character |
| Text.Strip | backend/src/data_loader.py:105-112 | `strip()` is empty exactly when the string is blank, and otherwise starts and ends with a non-space character |
| Text.BlankConcatIff | backend/src/embeddings.py:72-76 | a concatenation is blank exactly when both parts are |
| Text.NotBlankConcat | backend/src/embeddings.py:72-76 | a non-blank part makes the whole concatenation non-blank |
| Text.NatToString | backend/src/chroma_index.py:111 | the decimal rendering is a non-empty string of digits with no leading zero |
| Text.DecimalRoundTrip | backend/src/chroma_index.py:111 | reading back the decimal rendering of `n` gives `n` |
| Text.NatToStringInjective | backend/src/chroma_index.py:111 | different numbers render differently |
| Text.IntToString | backend/src/data_loader.py:105 | `str(i)` of an integer is non-empty and does not start with white space |
| Text.Prefix | backend/src/rag_query.py:144 | `s[:n]` is a prefix of `s` of length `min(n, len(s))` |
| Text.Framed | backend/src/rag_query.py:118-149 | a concatenation starts with its first part and ends with its last |

## Left out

- Reading the ticket file, its existence check and JSON syntax errors: the model starts from the parsed value. So the error paths of `load_all_tickets` that come from the file system or the parser are not modelled.
- JSON floating-point numbers: `Json` holds integers only. Store distances and scores are `real`, so floating-point rounding is not modelled.
- `str()` of a list or a dictionary is a fixed bracketed placeholder (`"[...]"` or `"{...}"`). Its exact text, and Python's `repr` escaping inside it, are not modelled. As a consequence, two tickets whose ids are different lists (or different dictionaries) get the same stored id in the model, so indexing keeps only one of them, whereas Python stores two entries (`"[1]"` and `"[2]"`). Validation is unaffected: there only non-blankness matters, and the placeholder is non-blank like the real text.
- The key order of a JSON object: tickets are maps. The count dictionaries do keep insertion order, since `Counts` is an association list.
- Logging, and the messages of caught exceptions, beyond the `Raised` reply of the generative model.
- The sentence-transformer model: its configured name is kept, and its encoder is an uninterpreted function. `OneVectorPerText` is the one property assumed of it. Whether loading succeeds is the `attempt` parameter.
- Embeddings.EmbeddingService.GetEmbeddings: an encoder failure after a successful load is not modelled, because the encoder is a total function.
- Embeddings.EmbeddingService.GetQueryEmbedding: likewise, an encoder failure when encoding the query (`backend/src/embeddings.py` lines 128-134) is not modelled, because the encoder is a total function.
- The vector-store client: creating the data directory, opening the persistent client, the configured `COLLECTION_NAME` value, and the metadata the collection is created with (its description, `backend/src/chroma_index.py` lines 59-62). A `Collection` carries whatever name it is constructed with. Similarity ranking is not modelled either: `search` returns the store's answer as an input.
- ChromaIndex.GetCollectionStats: the `{"status": "error"}` result returned when counting raises (`backend/src/chroma_index.py` lines 174-176) is not modelled, because `Count` cannot fail in the model.
- ChromaIndex.CreateOrGetCollection: a failure of `collection.count()` or of the client is not modelled. Indexing errors, which the source re-raises (lines 152-154 and 77-79), are returned as `Err` values.
- ChromaIndex.Collection.Upsert: a batch that repeats an id is stored with the last entry winning. The real store may refuse such a batch instead.
- ChromaIndex.Collection.Upsert: metadata values that are not scalars are accepted. The store's own validation is library code outside this model, and it refuses such values: a ticket whose `resolution`, `status`, `priority`, `created_at` or subject is a list or a dictionary (or `None`, in some store versions) makes the upsert raise, and indexing fails with `ValueError` (`backend/src/chroma_index.py` lines 119-126, 143-148 and 152-154). So `ChromaIndex.IndexingSucceeds`, `ChromaIndex.IndexedTicketStored` and the success branch of `ChromaIndex.IndexOutcome` describe the store as modelled, which checks only that the batch lists line up.
- ChromaIndex.IndexAllTickets: the source's `if not ids` guard is left out because it cannot fire. Every loaded ticket yields one id (`BuildEntries`), and the guard is reached only with at least one ticket.
- RagQuery.QueryTopKTickets: opening (and possibly indexing) the collection is folded into `search`, which returns `None` when anything in the outer `try` raises.
- RagQuery.BuildRagPrompt: the `{score:.1%}` percentage rendering is the `percent` parameter.
- RagQuery.ResolveQuery: the generative model's configuration (model name, temperature, token limit, sampling) is not modelled. Its call is the `generate` parameter, and `GOOGLE_API_KEY` is the boolean `apiKeyConfigured`. Exceptions other than the generator's (`Raised`) are not modelled.
- `DEFAULT_TOP_K` and `MAX_TOP_K` come from a configuration module that is not part of this model. The values 5 and 10 are those the docstring of `query_top_k_tickets` states; 5 is the default `k` of `QueryTopKTickets` and `ResolveQuery`.
- The HTTP layer, the frontend and the evaluation scripts are not part of this model.
- Results are not re-sorted or tie-broken by score: they keep the store's order. `get_ticket_sample` with a negative `n` follows Python slicing and drops tickets from the end.
