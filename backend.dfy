/**
 * The chatbot controller's handlers as methods that update the chatbots table
 * and the vector collections in place, one awaited step at a time, in the
 * order of src/controllers/chatbot.ts. Each method is proved to leave the
 * state, and to send the replies, that the matching specification function
 * of module Handlers describes, and to keep the store valid.
 */
module ChatbotController {
  import opened Wrappers
  import opened Js
  import opened Json
  import opened Response
  import opened Rag
  import opened Handlers
  import Chunker

  class Backend {
    var chatbots: map<int, Chatbot>
    var nextChatbotId: int
    var collections: map<string, seq<Entry>>

    function State(): Store
      reads this
    {
      Store(chatbots, nextChatbotId, collections)
    }

    ghost predicate Valid()
      reads this
    {
      StoreValid(State())
    }

    /** An empty database: no chatbots, the serial id starting at 1, no collections. */
    constructor ()
      ensures Valid() && State() == Store(map[], 1, map[])
    {
      chatbots := map[];
      nextChatbotId := 1;
      collections := map[];
    }

    method CreateChatbot(name: Option<string>, userId: int) returns (replies: seq<Reply>, settled: Settled)
      requires Valid()
      modifies this
      ensures Valid()
      ensures var o := CreateChatbotSpec(old(State()), name, userId);
        State() == o.store && replies == o.replies && settled == o.settled
    {
      CreateChatbotBehaviour(State(), name, userId);
      if !Truthy(name) {
        return [ErrorJson(400, "Name is required")], Resolved;
      }
      // insert ... returning
      var id := nextChatbotId;
      nextChatbotId := nextChatbotId + 1;
      var row := Chatbot(userId, name.value, None);
      chatbots := chatbots[id := row];
      return [SendSuccess(JObject([("chatbot", ChatbotJson(id, row))]))], Resolved;
    }

    /** Extract the text, chunk it with 500/100 and embed every chunk. */
    method IngestPdf(file: UploadedFile, svc: Services, userId: int, chatbotId: string)
      returns (r: Result<seq<Entry>>)
      ensures r == Ingest(file, svc, userId, chatbotId)
    {
      if svc.pdfText.Err? {
        return Err(svc.pdfText.message);
      }
      var chunks := Chunker.SplitTextIntoChunks(svc.pdfText.value, Chunker.UploadChunkSize, Chunker.UploadChunkOverlap);
      var embeddings := EmbedAll(chunks, svc.embed);
      if embeddings.Err? {
        return Err(embeddings.message);
      }
      return Ok(Entries(file.originalname, chunks, embeddings.value, userId, chatbotId));
    }

    /** `getOrCreateCollection(name)` then `collection.add(records)`. */
    method WriteRecords(name: string, entries: seq<Entry>, write: ChromaWrite) returns (failed: Option<string>)
      modifies this
      ensures chatbots == old(chatbots) && nextChatbotId == old(nextChatbotId)
      ensures (collections, failed) == WriteCollection(old(collections), name, entries, write)
    {
      if write.CreateFails? {
        return Some(write.message);
      }
      var existing := if name in collections then collections[name] else [];
      if write.AddFails? {
        collections := collections[name := existing];  // created, nothing added
        return Some(write.message);
      }
      collections := collections[name := existing + entries];
      return None;
    }

    method UploadDocument(chatbotId: string, userId: int, file: Option<UploadedFile>, svc: Services)
      returns (replies: seq<Reply>, settled: Settled)
      requires Valid()
      modifies this
      ensures Valid()
      ensures var o := UploadDocumentSpec(old(State()), chatbotId, userId, file, svc);
        State() == o.store && replies == o.replies && settled == o.settled
    {
      UploadDocumentBehaviour(State(), chatbotId, userId, file, svc);
      if file.None? {
        return [NoFileReply], Resolved;
      }
      if OwnedId(chatbots, chatbotId, AutoRadix, userId).None? {
        return [NotFoundReply], Resolved;
      }
      var ingested := IngestPdf(file.value, svc, userId, chatbotId);
      if ingested.Err? {
        return [UploadErrorReply(ingested.message)], Resolved;
      }
      var failed := WriteRecords(CollectionName(chatbotId), ingested.value, svc.write);
      if failed.Some? {
        return [UploadErrorReply(failed.value)], Resolved;
      }
      return [SendSuccess(MessageJson(UploadedMessage))], Resolved;
    }

    method UpdateDocument(chatbotId: string, userId: int, file: Option<UploadedFile>, svc: Services)
      returns (replies: seq<Reply>, settled: Settled)
      requires Valid()
      modifies this
      ensures Valid()
      ensures var o := UpdateDocumentSpec(old(State()), chatbotId, userId, file, svc);
        State() == o.store && replies == o.replies && settled == o.settled
    {
      if file.None? {
        return [NoFileReply], Resolved;
      }
      ghost var s0 := State();
      UpdateDocumentStore(s0, chatbotId, userId, file.value, svc);
      var early: seq<Reply> := [];
      if OwnedId(chatbots, chatbotId, Radix10, userId).None? {
        early := [NotFoundReply];  // sent, but the handler carries on
      }
      var name := CollectionName(chatbotId);
      if svc.drop.DropOk? {
        collections := collections - {name};  // deleteCollection; a failure is caught and ignored
      }
      ghost var dropped := collections;
      assert dropped == DropCollection(s0.collections, name, svc.drop);
      var failed: Option<string>;
      var ingested := IngestPdf(file.value, svc, userId, chatbotId);
      if ingested.Err? {
        failed := Some(ingested.message);
      } else {
        failed := WriteRecords(name, ingested.value, svc.write);
      }
      assert (collections, failed) == Rebuild(dropped, name, ingested, svc.write);
      assert State() == s0.(collections := collections);
      settled := if early == [] then Resolved else Rejected(HeadersAlreadySent);
      if failed.Some? {
        replies := early + [UpdateErrorReply(failed.value)];
      } else if early == [] {
        replies := [Reply(200, MessageJson(UpdatedMessage))];
      } else {
        // the success reply throws; the catch tries once more and throws again
        HeadersSentIsUpdateFailure();
        replies := early + [Reply(200, MessageJson(UpdatedMessage)), UpdateErrorReply(HeadersSentMessage)];
      }
    }

    /** The shared tail of both query handlers; it reads the collections and changes nothing. */
    method Answer(early: seq<Reply>, chatbotId: string, query: string, nResults: nat, svc: Services)
      returns (replies: seq<Reply>, settled: Settled)
      ensures var o := AnswerSpec(State(), early, chatbotId, query, nResults, svc);
        replies == o.replies && settled == o.settled
    {
      var queryEmbedding := svc.embed(query);
      if queryEmbedding.Err? {
        return early, Rejected(ServiceFailed(queryEmbedding.message));
      }
      var name := CollectionName(chatbotId);
      if name !in collections {
        return early, Rejected(CollectionNotFound(name));
      }
      var collection := collections[name];
      var documents := Retrieve(collection, svc.rank(collection, queryEmbedding.value), nResults);
      var context := Context([documents]);
      var completion := svc.complete(Prompt(context, query));
      if completion.Err? {
        return early, Rejected(ServiceFailed(completion.message));
      }
      replies := early + [SendSuccess(JObject([("response", JString(completion.value)), ("context", JString(context))]))];
      settled := if early == [] then Resolved else Rejected(HeadersAlreadySent);
    }

    method QueryChatbot(chatbotId: string, userId: int, query: string, svc: Services)
      returns (replies: seq<Reply>, settled: Settled)
      ensures var o := QueryChatbotSpec(State(), chatbotId, userId, query, svc);
        replies == o.replies && settled == o.settled
    {
      var early: seq<Reply> := [];
      if OwnedId(chatbots, chatbotId, AutoRadix, userId).None? {
        early := [NotFoundReply];
      }
      replies, settled := Answer(early, chatbotId, query, OwnerQueryResults, svc);
    }

    method PublicChatbotQuery(id: string, query: string, apiKeyHeader: Option<string>, svc: Services)
      returns (replies: seq<Reply>, settled: Settled)
      ensures var o := PublicChatbotQuerySpec(State(), id, query, apiKeyHeader, svc);
        replies == o.replies && settled == o.settled
    {
      var gate := PublicGate(RowById(chatbots, id), apiKeyHeader);
      if gate.Some? {
        return [gate.value], Resolved;
      }
      replies, settled := Answer([], id, query, PublicQueryResults, svc);
    }

    method DeleteChatbot(chatbotId: string, userId: int, drop: ChromaDrop) returns (replies: seq<Reply>, settled: Settled)
      requires Valid()
      modifies this
      ensures Valid()
      ensures var o := DeleteChatbotSpec(old(State()), chatbotId, userId, drop);
        State() == o.store && replies == o.replies && settled == o.settled
    {
      DeleteChatbotBehaviour(State(), chatbotId, userId, drop);
      var early: seq<Reply> := [];
      if OwnedId(chatbots, chatbotId, AutoRadix, userId).None? {
        early := [NotFoundReply];
      }
      var k := ParseInt(chatbotId, AutoRadix);
      if k.Some? {
        chatbots := chatbots - {k.value};  // deleted by id alone
      }
      if drop.DropOk? {
        collections := collections - {CollectionName(chatbotId)};  // deleteCollection; a failure is caught and ignored
      }
      replies := early + [SendSuccess(JNull, 204)];
      settled := if early == [] then Resolved else Rejected(HeadersAlreadySent);
    }

    method ToggleWidget(chatbotId: string, userId: int, randomBytes: seq<Byte>)
      returns (replies: seq<Reply>, settled: Settled)
      requires Valid() && |randomBytes| == 32
      modifies this
      ensures Valid()
      ensures var o := ToggleWidgetSpec(old(State()), chatbotId, userId, randomBytes);
        State() == o.store && replies == o.replies && settled == o.settled
    {
      ToggleWidgetBehaviour(State(), chatbotId, userId, randomBytes);
      var owned := OwnedId(chatbots, chatbotId, Radix10, userId);
      if owned.None? {
        return [], Rejected(ChatbotUndefined);
      }
      var id := owned.value;
      var row := chatbots[id];
      if Truthy(row.apiKey) {
        chatbots := chatbots[id := row.(apiKey := None)];
        return [], Resolved;
      }
      var key := WidgetKey(randomBytes);
      chatbots := chatbots[id := row.(apiKey := Some(key))];
      return [SendSuccess(JObject([("message", JString("Widget enabled")), ("apiKey", JString(key))]))], Resolved;
    }
  }
}
