/**
 * Embedding generation: the text prepared for each ticket, the blank-query
 * check, and the load-once model cache. The sentence-embedding model itself
 * is an uninterpreted batch encoder.
 */
module Embeddings {
  import opened Wrappers
  import opened Text
  import opened JsonValue
  import opened Lists

  type Vector = seq<real>

  /** A loaded embedding model: its configured name and its batch encoder, left uninterpreted. */
  datatype Model = Model(name: string, encode: seq<string> -> seq<Vector>)

  /** What is assumed of the encoder: one vector per input text. */
  ghost predicate OneVectorPerText(m: Model)
  {
    forall texts: seq<string> :: |m.encode(texts)| == |texts|
  }

  datatype EmbeddingError = ModelLoadFailed | EmptyQuery

  /** The text embedded for a ticket: `f"{subject}\n\n{body}".strip()`, a missing field read as "". */
  function CombinedText(t: Dict): string
  {
    Strip(Str(Get(t, "subject", JStr(""))) + "\n\n" + Str(Get(t, "body", JStr(""))))
  }

  /** A ticket's text, or `None` when it is empty and the ticket is skipped. */
  function Prepared(t: Dict): Option<string>
  {
    var text := CombinedText(t);
    if text == [] then None else Some(text)
  }

  /** The texts sent to the encoder, in ticket order. */
  function EmbeddingTexts(tickets: seq<Dict>): seq<string>
  {
    FilterMap(tickets, Prepared)
  }

  /** A ticket is skipped exactly when its subject and its body both render as blank text. */
  lemma SkippedIff(t: Dict)
    ensures Prepared(t).None? <==>
      IsBlank(Str(Get(t, "subject", JStr("")))) && IsBlank(Str(Get(t, "body", JStr(""))))
  {
    var subject, body := Str(Get(t, "subject", JStr(""))), Str(Get(t, "body", JStr("")));
    BlankConcatIff(subject, "\n\n");
    BlankConcatIff(subject + "\n\n", body);
    assert IsBlank("\n\n") by {
      assert IsSpace("\n\n"[0]) && IsSpace("\n\n"[1]);
    }
  }

  /**
   * The kept texts are never more numerous than the tickets, and each is the
   * non-empty combined text of some ticket.
   */
  lemma TextsFromTickets(tickets: seq<Dict>, j: nat)
    requires j < |EmbeddingTexts(tickets)|
    ensures |EmbeddingTexts(tickets)| <= |tickets|
    ensures EmbeddingTexts(tickets)[j] != []
    ensures exists i :: 0 <= i < |tickets| && CombinedText(tickets[i]) == EmbeddingTexts(tickets)[j]
  {
    FilterMapSource(tickets, Prepared, j);
  }

  /** The model that a call would use: the cached one, or else the result of loading it now. */
  function Available(cache: Option<Model>, attempt: Option<Model>): Option<Model>
  {
    if cache.Some? then cache else attempt
  }

  /** What `get_embeddings` returns for `tickets` when `model` is the model it obtains. */
  function Embed(tickets: seq<Dict>, model: Option<Model>): Result<seq<Vector>, EmbeddingError>
  {
    var texts := EmbeddingTexts(tickets);
    if texts == [] then Ok([])
    else if model.None? then Err(ModelLoadFailed)
    else Ok(model.value.encode(texts))
  }

  /** With an encoder that yields one vector per text, there is one embedding per kept text. */
  lemma EmbedCount(tickets: seq<Dict>, model: Option<Model>)
    requires model.Some? ==> OneVectorPerText(model.value)
    ensures Embed(tickets, model).Ok? ==> |Embed(tickets, model).value| == |EmbeddingTexts(tickets)|
    ensures Embed(tickets, model).Err? <==> EmbeddingTexts(tickets) != [] && model.None?
  {
  }

  /** The loop of `get_embeddings` that collects the non-empty texts. */
  method PrepareTexts(tickets: seq<Dict>) returns (texts: seq<string>)
    ensures texts == EmbeddingTexts(tickets)
  {
    texts := [];
    for i := 0 to |tickets|
      invariant texts == EmbeddingTexts(tickets[..i])
    {
      FilterMapStep(tickets, Prepared, i);
      var text := CombinedText(tickets[i]);
      if text == [] {
        continue;
      }
      texts := texts + [text];
    }
    assert tickets[..|tickets|] == tickets;
  }

  /** The module's global model cache and the operations that use it. */
  class EmbeddingService {
    /** `_model_cache` */
    var cache: Option<Model>
    /** How many times a model has been loaded. */
    ghost var loads: nat

    ghost predicate Valid()
      reads this
    {
      && loads <= 1
      && (cache.Some? <==> loads == 1)
      && (cache.Some? ==> OneVectorPerText(cache.value))
    }

    constructor ()
      ensures Valid() && cache == None && loads == 0
    {
      cache := None;
      loads := 0;
    }

    /**
     * `_get_embedding_model`. `attempt` is what loading the configured model
     * would produce now (`None` if it raises). Once a model is cached it is
     * returned and never loaded again.
     */
    method GetModel(attempt: Option<Model>) returns (r: Result<Model, EmbeddingError>)
      requires Valid()
      requires attempt.Some? ==> OneVectorPerText(attempt.value)
      modifies this
      ensures Valid()
      ensures cache == Available(old(cache), attempt)
      ensures r == if cache.Some? then Ok(cache.value) else Err(ModelLoadFailed)
      ensures old(cache).Some? ==> loads == old(loads)
    {
      if cache.None? {
        if attempt.None? {
          return Err(ModelLoadFailed);
        }
        cache := attempt;
        loads := loads + 1;
      }
      r := Ok(cache.value);
    }

    /**
     * `get_embeddings`: one vector per non-empty ticket text, in ticket
     * order. When no text survives (in particular for no tickets) it
     * returns no vectors and leaves the model untouched.
     */
    method GetEmbeddings(tickets: seq<Dict>, attempt: Option<Model>) returns (r: Result<seq<Vector>, EmbeddingError>)
      requires Valid()
      requires attempt.Some? ==> OneVectorPerText(attempt.value)
      modifies this
      ensures Valid()
      ensures r == Embed(tickets, Available(old(cache), attempt))
      ensures r.Ok? ==> |r.value| == |EmbeddingTexts(tickets)|
      ensures cache == if EmbeddingTexts(tickets) == [] then old(cache) else Available(old(cache), attempt)
      ensures EmbeddingTexts(tickets) == [] || old(cache).Some? ==> loads == old(loads)
    {
      if tickets == [] {
        return Ok([]);
      }
      var texts := PrepareTexts(tickets);
      if texts == [] {
        return Ok([]);
      }
      var model := GetModel(attempt);
      if model.Err? {
        return Err(model.error);
      }
      r := Ok(model.value.encode(texts));
    }

    /** `get_query_embedding`: a blank query is refused; otherwise the stripped query is encoded. */
    method GetQueryEmbedding(query: string, attempt: Option<Model>) returns (r: Result<Vector, EmbeddingError>)
      requires Valid()
      requires attempt.Some? ==> OneVectorPerText(attempt.value)
      modifies this
      ensures Valid()
      ensures cache == if IsBlank(query) then old(cache) else Available(old(cache), attempt)
      ensures IsBlank(query) || old(cache).Some? ==> loads == old(loads)
      ensures IsBlank(query) ==> r == Err(EmptyQuery)
      ensures !IsBlank(query) ==>
        r == match Available(old(cache), attempt)
             case None => Err(ModelLoadFailed)
             case Some(m) => Ok(m.encode([Strip(query)])[0])
    {
      if query == [] || Strip(query) == [] {
        return Err(EmptyQuery);
      }
      var model := GetModel(attempt);
      if model.Err? {
        return Err(model.error);
      }
      var vectors := model.value.encode([Strip(query)]);
      r := Ok(vectors[0]);
    }
  }
}
