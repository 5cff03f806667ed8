/**
 * Indexing tickets into the vector store. The store's collection is an
 * abstract map from id to entry; ranking and persistence are not modelled.
 */
module ChromaIndex {
  import opened Wrappers
  import opened Text
  import opened JsonValue
  import opened Lists
  import opened DataLoader
  import opened Embeddings

  /** The metadata stored with each ticket; values are kept as the ticket holds them. */
  datatype Metadata = Metadata(
    ticketId: string,
    ticketSubject: Json,
    ticketResolution: Json,
    ticketStatus: Json,
    ticketPriority: Json,
    createdAt: Json)

  /** The id given to a ticket without one: `f"ticket_{n}"`. */
  function SyntheticId(n: nat): string
  {
    "ticket_" + NatToString(n)
  }

  /** `str(ticket.get("id", f"ticket_{len(ids)}"))`, where `accepted` is `len(ids)`. */
  function EntryId(t: Dict, accepted: nat): string
  {
    Str(Get(t, "id", JStr(SyntheticId(accepted))))
  }

  function Subject(t: Dict): Json
  {
    Get(t, "subject", JStr("No subject"))
  }

  /** `f"{subject}\n\n{body}"` with the "No subject" and "No description" defaults. */
  function DocumentText(t: Dict): string
  {
    Str(Subject(t)) + "\n\n" + Str(Get(t, "body", JStr("No description")))
  }

  function MetadataOf(t: Dict, id: string): Metadata
  {
    Metadata(
      id,
      Subject(t),
      Get(t, "resolution", JStr("No resolution provided")),
      Get(t, "status", JStr("unknown")),
      Get(t, "priority", JStr("normal")),
      Get(t, "created_at", JStr("")))
  }

  /** The ids built for `tickets`, one per ticket. */
  function Ids(tickets: seq<Dict>): (r: seq<string>)
    ensures |r| == |tickets|
  {
    seq(|tickets|, i requires 0 <= i < |tickets| => EntryId(tickets[i], i))
  }

  function Documents(tickets: seq<Dict>): (r: seq<string>)
    ensures |r| == |tickets|
  {
    seq(|tickets|, i requires 0 <= i < |tickets| => DocumentText(tickets[i]))
  }

  function Metadatas(tickets: seq<Dict>): (r: seq<Metadata>)
    ensures |r| == |tickets|
  {
    seq(|tickets|, i requires 0 <= i < |tickets| => MetadataOf(tickets[i], EntryId(tickets[i], i)))
  }

  /**
   * The loop of `index_all_tickets` that builds the three upsert lists. They
   * grow in lockstep: the i-th id, document and metadata all come from the
   * i-th ticket, a ticket without an id is named after the number of ids
   * accepted before it, and the metadata's `ticketId` is the entry's id.
   */
  method BuildEntries(tickets: seq<Dict>) returns (ids: seq<string>, documents: seq<string>, metadatas: seq<Metadata>)
    ensures |ids| == |documents| == |metadatas| == |tickets|
    ensures forall i :: 0 <= i < |tickets| ==>
      && ids[i] == (if "id" in tickets[i] then Str(tickets[i]["id"]) else SyntheticId(i))
      && documents[i] == DocumentText(tickets[i])
      && metadatas[i] == MetadataOf(tickets[i], ids[i])
      && metadatas[i].ticketId == ids[i]
    ensures ids == Ids(tickets) && documents == Documents(tickets) && metadatas == Metadatas(tickets)
  {
    ids, documents, metadatas := [], [], [];
    for i := 0 to |tickets|
      invariant |ids| == i
      invariant EntriesUpTo(tickets, ids, documents, metadatas, i)
    {
      var ticket := tickets[i];
      var ticketId := EntryId(ticket, |ids|);
      var docText := DocumentText(ticket);
      var metadata := MetadataOf(ticket, ticketId);
      EntriesStep(tickets, ids, documents, metadatas, i);
      ids := ids + [ticketId];
      documents := documents + [docText];
      metadatas := metadatas + [metadata];
    }
    EntriesOfTickets(tickets, ids, documents, metadatas);
  }

  /** The first `n` entries have been built, each from its own ticket. */
  ghost predicate EntriesUpTo(tickets: seq<Dict>, ids: seq<string>, documents: seq<string>, metadatas: seq<Metadata>, n: nat)
  {
    && n <= |tickets|
    && |ids| == |documents| == |metadatas| == n
    && forall j :: 0 <= j < n ==>
      && ids[j] == EntryId(tickets[j], j)
      && documents[j] == DocumentText(tickets[j])
      && metadatas[j] == MetadataOf(tickets[j], ids[j])
  }

  /** Building the entry of ticket `n` extends the built entries by one. */
  lemma EntriesStep(tickets: seq<Dict>, ids: seq<string>, documents: seq<string>, metadatas: seq<Metadata>, n: nat)
    requires n < |tickets| && EntriesUpTo(tickets, ids, documents, metadatas, n)
    ensures EntriesUpTo(tickets, ids + [EntryId(tickets[n], n)], documents + [DocumentText(tickets[n])],
      metadatas + [MetadataOf(tickets[n], EntryId(tickets[n], n))], n + 1)
  {
  }

  /** Lists built entry by entry from the tickets are the ones `Ids`, `Documents` and `Metadatas` describe. */
  lemma EntriesOfTickets(tickets: seq<Dict>, ids: seq<string>, documents: seq<string>, metadatas: seq<Metadata>)
    requires EntriesUpTo(tickets, ids, documents, metadatas, |tickets|)
    ensures |ids| == |documents| == |metadatas| == |tickets|
    ensures forall i :: 0 <= i < |tickets| ==>
      && ids[i] == (if "id" in tickets[i] then Str(tickets[i]["id"]) else SyntheticId(i))
      && documents[i] == DocumentText(tickets[i])
      && metadatas[i] == MetadataOf(tickets[i], ids[i])
      && metadatas[i].ticketId == ids[i]
    ensures ids == Ids(tickets) && documents == Documents(tickets) && metadatas == Metadatas(tickets)
  {
  }

  /** Two tickets without ids get different synthetic ids when they have different positions. */
  lemma SyntheticIdsDistinct(a: nat, b: nat)
    requires a != b
    ensures SyntheticId(a) != SyntheticId(b)
  {
    if SyntheticId(a) == SyntheticId(b) {
      var p := "ticket_";
      assert SyntheticId(a)[|p|..] == NatToString(a);
      assert SyntheticId(b)[|p|..] == NatToString(b);
      NatToStringInjective(a, b);
    }
  }

  /**
   * A ticket that passed validation keeps its own id, subject and body: none
   * of the defaults applies, and its id is not blank.
   */
  lemma ValidTicketEntry(t: Dict, n: nat)
    requires IsValidTicket(JObj(t))
    ensures EntryId(t, n) == Str(t["id"]) && !IsBlank(EntryId(t, n))
    ensures DocumentText(t) == Str(t["subject"]) + "\n\n" + Str(t["body"])
  {
  }

  /**
   * For tickets that passed validation no ticket is skipped when embedding:
   * the i-th text is the i-th ticket's, so with an encoder that yields one
   * vector per text there are exactly as many vectors as ids, and the i-th
   * vector belongs to the ticket with the i-th id.
   */
  lemma EmbeddingsAlignWithIds(tickets: seq<Dict>, model: Model)
    requires forall i :: 0 <= i < |tickets| ==> IsValidTicket(JObj(tickets[i]))
    requires OneVectorPerText(model)
    ensures |EmbeddingTexts(tickets)| == |tickets|
    ensures forall i :: 0 <= i < |tickets| ==> EmbeddingTexts(tickets)[i] == CombinedText(tickets[i])
    ensures Embed(tickets, Some(model)).Ok?
    ensures |Embed(tickets, Some(model)).value| == |Ids(tickets)|
  {
    forall i | 0 <= i < |tickets|
      ensures Prepared(tickets[i]).Some?
    {
      ValidTicketKept(tickets[i]);
    }
    FilterMapKeepsAll(tickets, Prepared);
  }

  /** A valid ticket's subject is not blank, so neither is its combined text. */
  lemma ValidTicketKept(t: Dict)
    requires IsValidTicket(JObj(t))
    ensures Prepared(t).Some?
  {
    var subject, body := Str(t["subject"]), Str(t["body"]);
    NotBlankConcat(subject, "\n\n" + body);
    assert subject + "\n\n" + body == subject + ("\n\n" + body);
  }

  /** One stored vector-store entry. */
  datatype Entry = Entry(embedding: Vector, document: string, metadata: Metadata)

  /** The arguments of one `upsert` call. */
  datatype Batch = Batch(ids: seq<string>, embeddings: seq<Vector>, documents: seq<string>, metadatas: seq<Metadata>)

  /** The store accepts a batch only when its four lists have the same length. */
  predicate Aligned(b: Batch)
  {
    |b.embeddings| == |b.ids| && |b.documents| == |b.ids| && |b.metadatas| == |b.ids|
  }

  /** The entries after an upsert: each id in turn is inserted or replaced, so a later duplicate wins. */
  function Upserted(entries: map<string, Entry>, b: Batch): map<string, Entry>
    requires Aligned(b)
    decreases |b.ids|
  {
    if b.ids == [] then entries
    else
      var n := |b.ids| - 1;
      Upserted(entries, Batch(b.ids[..n], b.embeddings[..n], b.documents[..n], b.metadatas[..n]))
        [b.ids[n] := Entry(b.embeddings[n], b.documents[n], b.metadatas[n])]
  }

  /** An upsert is the old entries overridden by the batch on its own. */
  lemma {:induction false} UpsertedOverride(entries: map<string, Entry>, b: Batch)
    requires Aligned(b)
    ensures Upserted(entries, b) == entries + Upserted(map[], b)
    decreases |b.ids|
  {
    if b.ids != [] {
      var n := |b.ids| - 1;
      var init := Batch(b.ids[..n], b.embeddings[..n], b.documents[..n], b.metadatas[..n]);
      UpsertedOverride(entries, init);
    }
  }

  /** Upserting the same batch twice leaves the store as upserting it once. */
  lemma UpsertIdempotent(entries: map<string, Entry>, b: Batch)
    requires Aligned(b)
    ensures Upserted(Upserted(entries, b), b) == Upserted(entries, b)
  {
    UpsertedOverride(entries, b);
    UpsertedOverride(Upserted(entries, b), b);
    var m := Upserted(map[], b);
    assert (entries + m) + m == entries + m;
  }

  /** After an upsert the store holds the old ids and the batch's ids, and no others. */
  lemma {:induction false} UpsertedKeys(entries: map<string, Entry>, b: Batch)
    requires Aligned(b)
    ensures forall k :: k in Upserted(entries, b) <==> k in entries || k in b.ids
    decreases |b.ids|
  {
    if b.ids != [] {
      var n := |b.ids| - 1;
      var init := Batch(b.ids[..n], b.embeddings[..n], b.documents[..n], b.metadatas[..n]);
      UpsertedKeys(entries, init);
      assert b.ids == init.ids + [b.ids[n]];
    }
  }

  /** An id's entry after an upsert is the one at its last position in the batch. */
  lemma {:induction false} UpsertedLastWins(entries: map<string, Entry>, b: Batch, i: nat)
    requires Aligned(b) && i < |b.ids|
    requires forall j :: i < j < |b.ids| ==> b.ids[j] != b.ids[i]
    ensures b.ids[i] in Upserted(entries, b)
    ensures Upserted(entries, b)[b.ids[i]] == Entry(b.embeddings[i], b.documents[i], b.metadatas[i])
    decreases |b.ids|
  {
    var n := |b.ids| - 1;
    if i < n {
      var init := Batch(b.ids[..n], b.embeddings[..n], b.documents[..n], b.metadatas[..n]);
      UpsertedLastWins(entries, init, i);
    }
  }

  /** Ids outside the batch keep their entries. */
  lemma {:induction false} UpsertedKeepsOthers(entries: map<string, Entry>, b: Batch, k: string)
    requires Aligned(b) && k in entries && k !in b.ids
    ensures k in Upserted(entries, b) && Upserted(entries, b)[k] == entries[k]
    decreases |b.ids|
  {
    if b.ids != [] {
      var n := |b.ids| - 1;
      var init := Batch(b.ids[..n], b.embeddings[..n], b.documents[..n], b.metadatas[..n]);
      assert b.ids == init.ids + [b.ids[n]];
      UpsertedKeepsOthers(entries, init, k);
    }
  }

  datatype IndexError = TicketsUnavailable(cause: LoadError) | EmbeddingsFailed(reason: EmbeddingError) | BatchMisaligned

  /** The upsert that indexing builds for `tickets` from `embeddings`. */
  function TicketBatch(tickets: seq<Dict>, embeddings: seq<Vector>): Batch
  {
    Batch(Ids(tickets), embeddings, Documents(tickets), Metadatas(tickets))
  }

  /**
   * What `index_all_tickets` reports and the entries it leaves, for a store
   * holding `entries`, the parsed ticket file and the embedding model it obtains.
   */
  function IndexOutcome(entries: map<string, Entry>, parsed: Json, model: Option<Model>): (Result<(), IndexError>, map<string, Entry>)
  {
    match Load(parsed)
    case Err(e) => (Err(TicketsUnavailable(e)), entries)
    case Ok(tickets) =>
      if tickets == [] then (Ok(()), entries)
      else match Embed(tickets, model)
        case Err(e) => (Err(EmbeddingsFailed(e)), entries)
        case Ok(vectors) =>
          var b := TicketBatch(tickets, vectors);
          if Aligned(b) then (Ok(()), Upserted(entries, b)) else (Err(BatchMisaligned), entries)
  }

  /**
   * The model cache after indexing: the model is needed, and so obtained,
   * only when some loaded ticket has text to embed.
   */
  function IndexedCache(cache: Option<Model>, parsed: Json, attempt: Option<Model>): Option<Model>
  {
    match Load(parsed)
    case Ok(tickets) => if EmbeddingTexts(tickets) == [] then cache else Available(cache, attempt)
    case Err(_) => cache
  }

  /** Indexing a loaded, non-empty ticket file always obtains the model: validated tickets all have text. */
  lemma IndexingLoadsModel(cache: Option<Model>, parsed: Json, attempt: Option<Model>)
    requires Load(parsed).Ok? && Load(parsed).value != []
    ensures IndexedCache(cache, parsed, attempt) == Available(cache, attempt)
  {
    var tickets := Load(parsed).value;
    LoadOutcomes(parsed);
    AllKeptValid(parsed.items);
    assert IsValidTicket(JObj(tickets[0]));
    ValidTicketKept(tickets[0]);
    FilterMapEmpty(tickets, Prepared);
  }

  /**
   * Indexing a well-formed ticket file never fails on the alignment of the
   * upsert lists: when the tickets load and a model is available, the batch
   * of all loaded tickets is aligned and the store becomes the old entries
   * upserted with it (a repeated id keeps its last entry).
   */
  lemma IndexingSucceeds(entries: map<string, Entry>, parsed: Json, model: Model)
    requires OneVectorPerText(model)
    requires Load(parsed).Ok? && Load(parsed).value != []
    ensures var tickets := Load(parsed).value;
      && Embed(tickets, Some(model)).Ok?
      && Aligned(TicketBatch(tickets, Embed(tickets, Some(model)).value))
      && IndexOutcome(entries, parsed, Some(model)) ==
         (Ok(()), Upserted(entries, TicketBatch(tickets, Embed(tickets, Some(model)).value)))
  {
    var tickets := Load(parsed).value;
    LoadOutcomes(parsed);
    AllKeptValid(parsed.items);
    EmbeddingsAlignWithIds(tickets, model);
  }

  /**
   * After indexing, a loaded ticket whose id no later ticket repeats is
   * stored under that id with its own embedding, document and metadata.
   */
  lemma IndexedTicketStored(entries: map<string, Entry>, parsed: Json, model: Model,
                            tickets: seq<Dict>, vectors: seq<Vector>, i: nat)
    requires OneVectorPerText(model)
    requires Load(parsed) == Ok(tickets) && Embed(tickets, Some(model)) == Ok(vectors)
    requires i < |tickets| && forall j :: i < j < |tickets| ==> Ids(tickets)[j] != Ids(tickets)[i]
    ensures i < |vectors|
    ensures Ids(tickets)[i] in IndexOutcome(entries, parsed, Some(model)).1
    ensures IndexOutcome(entries, parsed, Some(model)).1[Ids(tickets)[i]] ==
      Entry(vectors[i], DocumentText(tickets[i]), MetadataOf(tickets[i], Ids(tickets)[i]))
  {
    IndexingSucceeds(entries, parsed, model);
    var b := TicketBatch(tickets, vectors);
    assert IndexOutcome(entries, parsed, Some(model)).1 == Upserted(entries, b);
    UpsertedLastWins(entries, b, i);
  }

  /** An empty or unloadable ticket file leaves the store as it was. */
  lemma NoUpsertWithoutTickets(entries: map<string, Entry>, parsed: Json, model: Option<Model>)
    requires Load(parsed) != Ok([]) ==> Load(parsed).Err?
    ensures IndexOutcome(entries, parsed, model).1 == entries
    ensures IndexOutcome(entries, parsed, model).0.Ok? <==> Load(parsed) == Ok([])
  {
  }

  /** A vector-store collection: its name and its entries by id. */
  class Collection {
    const name: string
    var entries: map<string, Entry>

    constructor (name: string)
      ensures this.name == name && entries == map[]
    {
      this.name := name;
      entries := map[];
    }

    /** `collection.count()` */
    function Count(): nat
      reads this
    {
      |entries|
    }

    /** `collection.upsert(...)`: a misaligned batch is refused and changes nothing. */
    method Upsert(b: Batch) returns (r: Result<(), IndexError>)
      modifies this
      ensures !Aligned(b) ==> r == Err(BatchMisaligned) && entries == old(entries)
      ensures Aligned(b) ==> r == Ok(()) && entries == Upserted(old(entries), b)
    {
      if !Aligned(b) {
        return Err(BatchMisaligned);
      }
      entries := Upserted(entries, b);
      r := Ok(());
    }
  }

  /**
   * `index_all_tickets`: load the tickets, embed them, build the three lists
   * and upsert them. Nothing is upserted when no ticket is loaded. The
   * source's second guard, for an empty id list, is left out: every ticket
   * yields one entry (see `BuildEntries`), so it cannot fire.
   */
  method IndexAllTickets(collection: Collection, service: EmbeddingService, parsed: Json, attempt: Option<Model>)
    returns (r: Result<(), IndexError>)
    requires service.Valid()
    requires attempt.Some? ==> OneVectorPerText(attempt.value)
    modifies collection, service
    ensures service.Valid()
    ensures (r, collection.entries) == IndexOutcome(old(collection.entries), parsed, Available(old(service.cache), attempt))
    ensures service.cache == IndexedCache(old(service.cache), parsed, attempt)
  {
    var loaded := LoadAllTickets(parsed);
    if loaded.Err? {
      return Err(TicketsUnavailable(loaded.error));
    }
    var tickets := loaded.value;
    if tickets == [] {
      return Ok(());
    }
    var embeddings := service.GetEmbeddings(tickets, attempt);
    if embeddings.Err? {
      return Err(EmbeddingsFailed(embeddings.error));
    }
    var ids, documents, metadatas := BuildEntries(tickets);
    r := collection.Upsert(Batch(ids, embeddings.value, documents, metadatas));
  }

  /**
   * The empty-collection rule of `create_or_get_chroma_collection`: the
   * tickets are indexed only when the collection holds nothing; otherwise it
   * is returned unchanged and the model is not touched.
   */
  method CreateOrGetCollection(collection: Collection, service: EmbeddingService, parsed: Json, attempt: Option<Model>)
    returns (r: Result<(), IndexError>)
    requires service.Valid()
    requires attempt.Some? ==> OneVectorPerText(attempt.value)
    modifies collection, service
    ensures service.Valid()
    ensures old(collection.Count()) != 0 ==>
      r == Ok(()) && collection.entries == old(collection.entries) && service.cache == old(service.cache)
    ensures old(collection.Count()) == 0 ==>
      && (r, collection.entries) == IndexOutcome(old(collection.entries), parsed, Available(old(service.cache), attempt))
      && service.cache == IndexedCache(old(service.cache), parsed, attempt)
  {
    if collection.Count() == 0 {
      r := IndexAllTickets(collection, service, parsed, attempt);
    } else {
      r := Ok(());
    }
  }

  /** What `get_collection_stats` reports. */
  datatype CollectionStats = CollectionStats(totalTickets: nat, collectionName: string, status: string)

  /** `get_collection_stats`: "healthy" exactly when the collection holds an entry, "empty" otherwise. */
  function GetCollectionStats(collection: Collection): (r: CollectionStats)
    reads collection
    ensures r.totalTickets == collection.Count() && r.collectionName == collection.name
    ensures r.status == "healthy" <==> collection.Count() > 0
    ensures r.status == "empty" <==> collection.Count() == 0
  {
    CollectionStats(collection.Count(), collection.name, if collection.Count() > 0 then "healthy" else "empty")
  }
}
