/**
 * The pure pieces of the retrieval pipeline in the chatbot controllers: the
 * per-chatbot collection name, the records written for one uploaded
 * document, the gathering of chunk embeddings, the documents a query reads
 * back, the context string and the two-message prompt.
 */
module Rag {
  import opened Wrappers
  import opened Js

  // ------------------------------------------------------ collection names

  const CollectionPrefix: string := "chatbot_"

  /** `chatbot_${chatbotId}`, built from the raw route parameter. */
  function CollectionName(chatbotId: string): (r: string)
    ensures StartsWith(r, CollectionPrefix) && r[|CollectionPrefix|..] == chatbotId
  {
    CollectionPrefix + chatbotId
  }

  /** Distinct route parameters name distinct collections, and equal ones the same. */
  lemma CollectionNameInjective(a: string, b: string)
    ensures CollectionName(a) == CollectionName(b) <==> a == b
  {
  }

  // ---------------------------------------------------------------- records

  /** An embedding vector, produced by the embedding model and stored as it is. */
  type Embedding = seq<real>

  /** The tenant metadata stored with every chunk: the caller's user id and the raw chatbot id. */
  datatype Metadata = Metadata(userId: int, chatbotId: string)

  /** One record of a collection: id, vector, document text and metadata. */
  datatype Entry = Entry(id: string, embedding: Embedding, content: string, metadata: Metadata)

  /** The record id `${file.originalname}-${index}`. */
  function ChunkId(originalname: string, index: nat): (r: string)
    ensures StartsWith(r, originalname + "-") && r[|originalname| + 1..] == NatToString(index)
  {
    originalname + "-" + NatToString(index)
  }

  /** Within one file name, distinct indices give distinct ids. */
  lemma ChunkIdInjective(originalname: string, i: nat, j: nat)
    requires ChunkId(originalname, i) == ChunkId(originalname, j)
    ensures i == j
  {
    assert NatToString(i) == ChunkId(originalname, i)[|originalname| + 1..];
    NatToStringInjective(i, j);
  }

  /**
   * `Promise.all` over one embedding request per chunk: every vector in chunk
   * order, or the error of a failed request. Requests run concurrently in
   * the source; here the error reported is that of the first failing chunk.
   */
  function EmbedAll(chunks: seq<string>, embed: string -> Result<Embedding>): (r: Result<seq<Embedding>>)
    ensures r.Ok? ==> |r.value| == |chunks| && forall i :: 0 <= i < |chunks| ==> embed(chunks[i]) == Ok(r.value[i])
    ensures r.Err? ==> exists i :: 0 <= i < |chunks| && embed(chunks[i]) == Err(r.message)
    ensures r.Err? <==> exists i :: 0 <= i < |chunks| && embed(chunks[i]).Err?
  {
    if chunks == [] then Ok([])
    else match embed(chunks[0])
      case Err(m) => Err(m)
      case Ok(e) =>
        match EmbedAll(chunks[1..], embed)
        case Err(m) => Err(m)
        case Ok(es) => Ok([e] + es)
  }

  /** The records `collection.add` receives for one document, in chunk order. */
  function Entries(originalname: string, chunks: seq<string>, embeddings: seq<Embedding>,
                   userId: int, chatbotId: string): seq<Entry>
    requires |embeddings| == |chunks|
  {
    seq(|chunks|, i requires 0 <= i < |chunks| =>
      Entry(ChunkId(originalname, i), embeddings[i], chunks[i], Metadata(userId, chatbotId)))
  }

  /**
   * One record per chunk, in chunk order: record `i` carries id
   * `originalname-i`, the chunk as its document and chunk `i`'s vector; every
   * record carries the same metadata `{userId, chatbotId}`; and the ids of one
   * upload are pairwise distinct.
   */
  lemma EntriesOfUpload(originalname: string, chunks: seq<string>, embeddings: seq<Embedding>,
                        userId: int, chatbotId: string)
    requires |embeddings| == |chunks|
    ensures var r := Entries(originalname, chunks, embeddings, userId, chatbotId);
      && |r| == |chunks|
      && (forall i :: 0 <= i < |r| ==>
            && r[i].id == originalname + "-" + NatToString(i)
            && r[i].content == chunks[i] && r[i].embedding == embeddings[i]
            && r[i].metadata == Metadata(userId, chatbotId))
      && (forall i, j :: 0 <= i < j < |r| ==> r[i].id != r[j].id)
  {
    var r := Entries(originalname, chunks, embeddings, userId, chatbotId);
    forall i, j | 0 <= i < j < |r| ensures r[i].id != r[j].id {
      if r[i].id == r[j].id {
        ChunkIdInjective(originalname, i, j);
      }
    }
  }

  // -------------------------------------------------------------- retrieval

  /**
   * The documents a `collection.query` with `nResults` returns, given the
   * nearest-neighbour order of the collection's records (positions into the
   * collection, most similar first): at most `nResults` of them, every one
   * the document of a record of that collection.
   */
  function Retrieve(collection: seq<Entry>, ranking: seq<nat>, nResults: nat): (docs: seq<string>)
    ensures |docs| <= nResults && |docs| <= |ranking|
    ensures forall k :: 0 <= k < |docs| ==> exists j :: 0 <= j < |collection| && collection[j].content == docs[k]
  {
    if nResults == 0 || ranking == [] then []
    else if ranking[0] < |collection| then
      [collection[ranking[0]].content] + Retrieve(collection, ranking[1..], nResults - 1)
    else Retrieve(collection, ranking[1..], nResults)
  }

  /** Every retrieved document comes from a record whose metadata names the chatbot, when all of the collection's records do. */
  lemma RetrieveStaysInTenant(collection: seq<Entry>, ranking: seq<nat>, nResults: nat, chatbotId: string)
    requires forall j :: 0 <= j < |collection| ==> collection[j].metadata.chatbotId == chatbotId
    ensures forall k :: 0 <= k < |Retrieve(collection, ranking, nResults)| ==>
      exists j :: 0 <= j < |collection| && collection[j].metadata.chatbotId == chatbotId
                 && collection[j].content == Retrieve(collection, ranking, nResults)[k]
  {
    var docs := Retrieve(collection, ranking, nResults);
    forall k | 0 <= k < |docs|
      ensures exists j :: 0 <= j < |collection| && collection[j].metadata.chatbotId == chatbotId
                          && collection[j].content == docs[k]
    {
      var j :| 0 <= j < |collection| && collection[j].content == docs[k];
      assert collection[j].metadata.chatbotId == chatbotId;
    }
  }

  /** `results.documents[0]?.join('\n') || ''`. */
  function Context(documents: seq<seq<string>>): string
  {
    if documents == [] then "" else Join(documents[0], "\n")
  }

  /** No first row, or an empty one, gives the empty context. */
  lemma ContextOfNothing(documents: seq<seq<string>>)
    requires documents == [] || documents[0] == []
    ensures Context(documents) == ""
  {
  }

  /** A context splits back on "\n" into the first row's documents, when none of them holds a line break. */
  lemma ContextSplitsIntoDocuments(documents: seq<seq<string>>)
    requires documents != [] && documents[0] != []
    requires forall k :: 0 <= k < |documents[0]| ==> '\n' !in documents[0][k]
    ensures Split(Context(documents), '\n') == documents[0]
  {
    SplitJoin(documents[0], '\n');
  }

  // ----------------------------------------------------------------- prompt

  /** The roles of a chat message (the `message_role` enum of the schema). */
  datatype Role = System | User | Assistant

  datatype ChatMessage = ChatMessage(role: Role, content: string)

  const Persona: string := "You are a helpful customer support chatbot."
  const ContextLabel: string := "Context: "
  const QueryLabel: string := "\n\nQuery: "

  /** The messages sent to the completion model. */
  function Prompt(context: string, query: string): seq<ChatMessage>
  {
    [ChatMessage(System, Persona), ChatMessage(User, ContextLabel + context + QueryLabel + query)]
  }

  /**
   * The prompt is the fixed system persona followed by one user message that
   * reads "Context: ", the context, a blank line, "Query: " and the query;
   * both the context and the query can be read back out of it.
   */
  lemma PromptShape(context: string, query: string)
    ensures var p := Prompt(context, query);
      && |p| == 2 && p[0] == ChatMessage(System, "You are a helpful customer support chatbot.")
      && p[1].role == User
      && var c := p[1].content;
         && |c| == 18 + |context| + |query|
         && c[..9] == "Context: " && c[9..9 + |context|] == context
         && c[9 + |context|..18 + |context|] == "\n\nQuery: " && c[18 + |context|..] == query
  {
    var c := Prompt(context, query)[1].content;
    assert c == ContextLabel + context + QueryLabel + query;
  }

  /**
   * Two prompts that are equal came from the same context and the same query,
   * provided the contexts, or the queries, have equal lengths: otherwise a
   * context that itself contains "\n\nQuery: " can trade its tail for a
   * longer query and give the same prompt.
   */
  lemma PromptInjective(c1: string, q1: string, c2: string, q2: string)
    requires |c1| == |c2| || |q1| == |q2|
    requires Prompt(c1, q1) == Prompt(c2, q2)
    ensures c1 == c2 && q1 == q2
  {
    PromptShape(c1, q1);
    PromptShape(c2, q2);
  }

  /** The owner's query asks the collection for 3 documents, the public widget's for 5. */
  const OwnerQueryResults: nat := 3
  const PublicQueryResults: nat := 5
}
