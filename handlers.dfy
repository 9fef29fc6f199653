/**
 * The request handlers of the chatbot controller (src/controllers/chatbot.ts;
 * packages/backend/src/controllers/chatbot.ts holds identical copies of
 * createChatbot, uploadDocument and queryChatbot) over an abstract store: the
 * chatbots table and the vector collections, keyed by name. The embedding
 * model, pdf-parse, the vector store's outcome and ranking and the completion
 * model are inputs (`Services`).
 *
 * Each handler is specified by a function from the store before the request
 * to an `Outcome`: the store after it, the replies it hands to Express in
 * order, and how its promise settles. Express delivers only the first reply;
 * every later `res.json` throws ERR_HTTP_HEADERS_SENT, which the model
 * follows where the source lets such a throw change what happens next.
 * The class `Backend` performs the same steps on its fields.
 */
module Handlers {
  import opened Wrappers
  import opened Js
  import opened Json
  import opened Response
  import opened Rag
  import Chunker

  // ------------------------------------------------------------------ state

  /** A row of the chatbots table; its id is the row's key in `Store.chatbots`. Present `apiKey` = widget enabled. */
  datatype Chatbot = Chatbot(userId: int, name: string, apiKey: Option<string>)

  /** The chatbots table with its serial counter, and the vector collections by name. */
  datatype Store = Store(chatbots: map<int, Chatbot>, nextChatbotId: int, collections: map<string, seq<Entry>>)

  /** Every record of a collection carries, as its chatbot id, the id the collection is named after. */
  ghost predicate TenantIsolated(collections: map<string, seq<Entry>>)
  {
    forall name, k :: name in collections && 0 <= k < |collections[name]| ==>
      name == CollectionName(collections[name][k].metadata.chatbotId)
  }

  ghost predicate StoreValid(s: Store)
  {
    && (forall id :: id in s.chatbots ==> id < s.nextChatbotId)
    && TenantIsolated(s.collections)
  }

  /** Why a handler's promise rejects (no handler of the source catches these). */
  datatype Cause =
    | ServiceFailed(message: string)   // an embedding or completion request threw
    | CollectionNotFound(name: string) // `getCollection` on a name with no collection
    | HeadersAlreadySent               // a second `res.json` on one request
    | ChatbotUndefined                 // `chatbot.apiKey` read on an undefined row

  datatype Settled = Resolved | Rejected(cause: Cause)

  datatype Outcome = Outcome(store: Store, replies: seq<Reply>, settled: Settled)

  /** The file multer attaches; its bytes reach the model only as the text pdf-parse extracts. */
  datatype UploadedFile = UploadedFile(originalname: string)

  /** How `getOrCreateCollection` followed by `collection.add` fares. */
  datatype ChromaWrite = WriteOk | CreateFails(message: string) | AddFails(message: string)

  /** How `deleteCollection` fares; the handlers ignore its failure, whatever the cause. */
  datatype ChromaDrop = DropOk | DropFails

  /** The external services, as the answers they give to this request. */
  datatype Services = Services(
    pdfText: Result<string>,                       // pdf-parse on the uploaded buffer
    embed: string -> Result<Embedding>,            // the embedding model
    write: ChromaWrite,                            // the vector store's write
    drop: ChromaDrop,                              // the vector store's deleteCollection
    rank: (seq<Entry>, Embedding) -> seq<nat>,     // nearest-neighbour order of a collection
    complete: seq<ChatMessage> -> Result<string>)  // the completion model's answer

  // ---------------------------------------------------------------- replies

  function MessageJson(message: string): Json
  {
    JObject([("message", JString(message))])
  }

  const NoFileReply: Reply := ErrorJson(400, "No file uploaded")
  const NotFoundReply: Reply := SendError("Chatbot not found", 404)

  const OnlyPdfMessage: string := "Only PDF files are allowed"
  const FileTooLarge: string := "File too large"
  const SizeExceededMessage: string := "File size exceeds 5MB limit"
  /** Node's message for ERR_HTTP_HEADERS_SENT. */
  const HeadersSentMessage: string := "Cannot set headers " + "after they are " + "sent to the client"
  /** The last branch of `updateDocument`'s catch. */
  const UpdateFailedReply: Reply := ErrorJson(500, "Failed to update document")

  /** The `catch` of `uploadDocument`: the error's message decides the reply. */
  function UploadErrorReply(message: string): (r: Reply)
    ensures message == OnlyPdfMessage ==> r == SendError("Only PDF files are allowed", 400)
    ensures message != OnlyPdfMessage && Includes(message, "File too large") ==>
      r == SendError("File size exceeds 5MB limit", 400)
    ensures message != OnlyPdfMessage && !Includes(message, "File too large") ==>
      r == SendError("File size exceeds 5MB limit", 500)
  {
    if message == OnlyPdfMessage then SendError(OnlyPdfMessage, 400)
    else if Includes(message, FileTooLarge) then SendError(SizeExceededMessage, 400)
    else SendError(SizeExceededMessage, 500)
  }

  /** The `catch` of `updateDocument`, which answers without the envelope. */
  function UpdateErrorReply(message: string): (r: Reply)
    ensures message == OnlyPdfMessage ==> r == ErrorJson(400, "Only PDF files are allowed")
    ensures message != OnlyPdfMessage && Includes(message, "File too large") ==>
      r == ErrorJson(400, "File size exceeds 5MB limit")
    ensures message != OnlyPdfMessage && !Includes(message, "File too large") ==>
      r == ErrorJson(500, "Failed to update document")
  {
    if message == OnlyPdfMessage then ErrorJson(400, OnlyPdfMessage)
    else if Includes(message, FileTooLarge) then ErrorJson(400, SizeExceededMessage)
    else UpdateFailedReply
  }

  /** `s.includes(sub)` is false when the first character of `sub` is nowhere in `s`. */
  lemma {:induction false} NoStartCharNoInclude(s: string, sub: string)
    requires |sub| > 0 && sub[0] !in s
    ensures !Includes(s, sub)
    decreases |s|
  {
    if |s| > 0 {
      assert s[0] != sub[0];
      assert forall k :: 0 <= k < |s[1..]| ==> s[1..][k] == s[k + 1];
      NoStartCharNoInclude(s[1..], sub);
    }
  }

  /** The catch of `updateDocument` answers Node's headers-sent error with its generic 500. */
  lemma HeadersSentIsUpdateFailure()
    ensures UpdateErrorReply(HeadersSentMessage) == UpdateFailedReply
  {
    HeadersSentLacksF();
    NoStartCharNoInclude(HeadersSentMessage, FileTooLarge);
  }

  lemma HeadersSentLacksF()
    ensures 'F' !in HeadersSentMessage
  {
    assert 'F' !in "Cannot set headers ";
    assert 'F' !in "after they are ";
    assert 'F' !in "sent to the client";
  }

  /** Every upload failure but the PDF-only one reports the size message, whatever it was. */
  lemma UploadErrorsSpeakOfSize(message: string)
    requires message != OnlyPdfMessage
    ensures Get(UploadErrorReply(message).body, "error") == Some(JString("File size exceeds 5MB limit"))
    ensures UploadErrorReply(message).status == (if Includes(message, "File too large") then 400 else 500)
  {
  }

  /** A chatbot row as JSON (its `createdAt` column is not modelled). */
  function ChatbotJson(id: int, c: Chatbot): Json
  {
    JObject([("id", JNumber(id)), ("userId", JNumber(c.userId)), ("name", JString(c.name)),
             ("apiKey", if c.apiKey.Some? then JString(c.apiKey.value) else JNull)])
  }

  // ---------------------------------------------------------------- lookups

  /**
   * The tenant-scoped lookup `where id = parseInt(chatbotId) and userId = userId`:
   * the id of the caller's chatbot, if the parameter names one
   * (a parameter that parses to NaN matches no row).
   */
  function OwnedId(chatbots: map<int, Chatbot>, chatbotId: string, radix: Radix, userId: int): (r: Option<int>)
    ensures r.Some? ==> r.value in chatbots && chatbots[r.value].userId == userId && ParseInt(chatbotId, radix) == r
    ensures r.None? ==> forall id :: id in chatbots && chatbots[id].userId == userId ==> ParseInt(chatbotId, radix) != Some(id)
    ensures radix == AutoRadix ==>
      (r.Some? <==> RowById(chatbots, chatbotId).Some? && RowById(chatbots, chatbotId).value.userId == userId)
  {
    var k := ParseInt(chatbotId, radix);
    if k.Some? && k.value in chatbots && chatbots[k.value].userId == userId then k else None
  }

  /** The decimal form of an id finds that chatbot exactly when the caller owns it, with either `parseInt`. */
  lemma OwnedIdOfDecimal(chatbots: map<int, Chatbot>, id: nat, radix: Radix, userId: int)
    ensures OwnedId(chatbots, NatToString(id), radix, userId) ==
      if id in chatbots && chatbots[id].userId == userId then Some(id) else None
  {
    ParseIntNatToString(id, radix);
  }

  /** The unscoped lookup `where id = parseInt(id)` of the public route. */
  function RowById(chatbots: map<int, Chatbot>, id: string): Option<Chatbot>
  {
    var k := ParseInt(id, AutoRadix);
    if k.Some? && k.value in chatbots then Some(chatbots[k.value]) else None
  }

  // ---------------------------------------------------------- createChatbot

  /** `createChatbot`: a falsy name is refused before anything is inserted. */
  function CreateChatbotSpec(s: Store, name: Option<string>, userId: int): Outcome
  {
    if !Truthy(name) then Outcome(s, [ErrorJson(400, "Name is required")], Resolved)
    else
      var id := s.nextChatbotId;
      var row := Chatbot(userId, name.value, None);
      Outcome(Store(s.chatbots[id := row], id + 1, s.collections),
              [SendSuccess(JObject([("chatbot", ChatbotJson(id, row))]))], Resolved)
  }

  /**
   * A missing or empty name gives 400 'Name is required' and inserts nothing;
   * otherwise one row owned by the caller, with no API key, is inserted under
   * a fresh id and returned.
   */
  lemma CreateChatbotBehaviour(s: Store, name: Option<string>, userId: int)
    requires StoreValid(s)
    ensures var o := CreateChatbotSpec(s, name, userId);
      && o.settled == Resolved && |o.replies| == 1
      && (name.None? || name.value == "" ==>
            o.store == s && o.replies[0] == Reply(400, JObject([("error", JString("Name is required"))])))
      && (name.Some? && name.value != "" ==>
            && s.nextChatbotId !in s.chatbots
            && o.store.chatbots == s.chatbots[s.nextChatbotId := Chatbot(userId, name.value, None)]
            && o.store.nextChatbotId == s.nextChatbotId + 1
            && o.store.collections == s.collections
            && o.replies[0] == SendSuccess(JObject([("chatbot", ChatbotJson(s.nextChatbotId, Chatbot(userId, name.value, None)))]), 200))
      && StoreValid(o.store)
  {
  }

  // ------------------------------------------------------ ingestion helpers

  /** Extract, chunk with 500/100, embed: the records of one document, or the message of the step that threw. */
  function Ingest(file: UploadedFile, svc: Services, userId: int, chatbotId: string): Result<seq<Entry>>
  {
    match svc.pdfText
    case Err(m) => Err(m)
    case Ok(text) =>
      var chunks := Chunker.Chunks(text, Chunker.UploadChunkSize, Chunker.UploadChunkOverlap);
      match EmbedAll(chunks, svc.embed)
      case Err(m) => Err(m)
      case Ok(es) => Ok(Entries(file.originalname, chunks, es, userId, chatbotId))
  }

  /** `getOrCreateCollection` then `add`: the collections afterwards and the message of a failed step. */
  function WriteCollection(collections: map<string, seq<Entry>>, name: string, entries: seq<Entry>,
                           write: ChromaWrite): (map<string, seq<Entry>>, Option<string>)
  {
    var existing := if name in collections then collections[name] else [];
    match write
    case CreateFails(m) => (collections, Some(m))
    case AddFails(m) => (collections[name := existing], Some(m))
    case WriteOk => (collections[name := existing + entries], None)
  }

  lemma IngestTagsTenant(file: UploadedFile, svc: Services, userId: int, chatbotId: string)
    ensures var r := Ingest(file, svc, userId, chatbotId);
      r.Ok? ==> forall k :: 0 <= k < |r.value| ==> r.value[k].metadata == Metadata(userId, chatbotId)
  {
    if svc.pdfText.Ok? {
      var chunks := Chunker.Chunks(svc.pdfText.value, Chunker.UploadChunkSize, Chunker.UploadChunkOverlap);
      var e := EmbedAll(chunks, svc.embed);
      if e.Ok? {
        EntriesOfUpload(file.originalname, chunks, e.value, userId, chatbotId);
      }
    }
  }

  /** Writing records tagged with a chatbot id into that id's collection keeps the store tenant-isolated. */
  lemma WriteKeepsIsolation(collections: map<string, seq<Entry>>, chatbotId: string, entries: seq<Entry>,
                            write: ChromaWrite)
    requires TenantIsolated(collections)
    requires forall k :: 0 <= k < |entries| ==> entries[k].metadata.chatbotId == chatbotId
    ensures TenantIsolated(WriteCollection(collections, CollectionName(chatbotId), entries, write).0)
  {
    var name := CollectionName(chatbotId);
    var existing := if name in collections then collections[name] else [];
    var after: map<string, seq<Entry>> := WriteCollection(collections, name, entries, write).0;
    forall n: string, k: int | n in after && 0 <= k < |after[n]|
      ensures n == CollectionName(after[n][k].metadata.chatbotId)
    {
      if n == name && write.WriteOk? {
        if k >= |existing| {
          assert after[n][k] == entries[k - |existing|];
        } else {
          assert after[n][k] == existing[k];
        }
      }
    }
  }

  /** `deleteCollection` inside a try whose catch discards the error: a failed drop leaves the collection as it was. */
  function DropCollection(collections: map<string, seq<Entry>>, name: string, drop: ChromaDrop): (r: map<string, seq<Entry>>)
    ensures name in r <==> drop.DropFails? && name in collections
    ensures forall n :: n != name ==> (n in r <==> n in collections)
    ensures forall n :: n in r ==> r[n] == collections[n]
  {
    if drop.DropOk? then collections - {name} else collections
  }

  lemma DropKeepsIsolation(collections: map<string, seq<Entry>>, name: string, drop: ChromaDrop)
    requires TenantIsolated(collections)
    ensures TenantIsolated(DropCollection(collections, name, drop))
  {
  }

  // --------------------------------------------------------- uploadDocument

  const UploadedMessage: string := "Document processed and embeddings stored"

  function UploadDocumentSpec(s: Store, chatbotId: string, userId: int, file: Option<UploadedFile>,
                              svc: Services): Outcome
  {
    if file.None? then Outcome(s, [NoFileReply], Resolved)
    else if OwnedId(s.chatbots, chatbotId, AutoRadix, userId).None? then Outcome(s, [NotFoundReply], Resolved)
    else match Ingest(file.value, svc, userId, chatbotId)
      case Err(m) => Outcome(s, [UploadErrorReply(m)], Resolved)
      case Ok(entries) =>
        var (cols, failed) := WriteCollection(s.collections, CollectionName(chatbotId), entries, svc.write);
        Outcome(s.(collections := cols),
                [if failed.Some? then UploadErrorReply(failed.value) else SendSuccess(MessageJson(UploadedMessage))],
                Resolved)
  }

  /**
   * `uploadDocument`: no file gives 400 'No file uploaded' and an ownership
   * miss 404, both before any write; a failure while extracting or embedding
   * writes nothing; a successful upload appends one record per chunk of the
   * text (chunked with 500/100) to `chatbot_<chatbotId>` and touches nothing
   * else. Exactly one reply is sent.
   */
  lemma UploadDocumentBehaviour(s: Store, chatbotId: string, userId: int, file: Option<UploadedFile>,
                                svc: Services)
    requires StoreValid(s)
    ensures var o := UploadDocumentSpec(s, chatbotId, userId, file, svc);
      && o.settled == Resolved && |o.replies| == 1
      && o.store.chatbots == s.chatbots && o.store.nextChatbotId == s.nextChatbotId
      && (file.None? ==> o.store == s && o.replies[0] == ErrorJson(400, "No file uploaded"))
      && (file.Some? && OwnedId(s.chatbots, chatbotId, AutoRadix, userId).None? ==>
            o.store == s && o.replies[0] == SendError("Chatbot not found", 404))
      && (file.Some? && OwnedId(s.chatbots, chatbotId, AutoRadix, userId).Some? ==>
            var ingested := Ingest(file.value, svc, userId, chatbotId);
            && (ingested.Err? ==> o.store == s && o.replies[0] == UploadErrorReply(ingested.message))
            && (ingested.Ok? ==>
                  var (cols, failed) := WriteCollection(s.collections, CollectionName(chatbotId), ingested.value, svc.write);
                  && o.store.collections == cols
                  && o.replies[0] == if failed.Some? then UploadErrorReply(failed.value)
                                     else SendSuccess(MessageJson(UploadedMessage))))
      && (file.Some? && OwnedId(s.chatbots, chatbotId, AutoRadix, userId).Some?
          && svc.pdfText.Ok? && svc.write.WriteOk?
          && EmbedAll(Chunker.Chunks(svc.pdfText.value, 500, 100), svc.embed).Ok? ==>
            var name := CollectionName(chatbotId);
            var chunks := Chunker.Chunks(svc.pdfText.value, 500, 100);
            var es := EmbedAll(chunks, svc.embed).value;
            && o.store.collections == s.collections[name := (if name in s.collections then s.collections[name] else [])
                                                           + Entries(file.value.originalname, chunks, es, userId, chatbotId)]
            && o.replies[0] == SendSuccess(JObject([("message", JString("Document processed and embeddings stored"))]), 200))
      && StoreValid(o.store)
  {
    if file.Some? && OwnedId(s.chatbots, chatbotId, AutoRadix, userId).Some? {
      var r := Ingest(file.value, svc, userId, chatbotId);
      IngestTagsTenant(file.value, svc, userId, chatbotId);
      if r.Ok? {
        WriteKeepsIsolation(s.collections, chatbotId, r.value, svc.write);
      }
    }
  }

  // --------------------------------------------------------- updateDocument

  /** Ingest into a collection: nothing is written when ingestion threw. */
  function Rebuild(collections: map<string, seq<Entry>>, name: string, ingested: Result<seq<Entry>>,
                   write: ChromaWrite): (map<string, seq<Entry>>, Option<string>)
  {
    match ingested
    case Err(m) => (collections, Some(m))
    case Ok(entries) => WriteCollection(collections, name, entries, write)
  }

  const UpdatedMessage: string := "Document updated and new embeddings stored"

  /**
   * `updateDocument`. Its ownership miss sends 404 and does not return: the
   * collection is still dropped and rebuilt, and the later replies throw.
   */
  function UpdateDocumentSpec(s: Store, chatbotId: string, userId: int, file: Option<UploadedFile>,
                              svc: Services): Outcome
  {
    if file.None? then Outcome(s, [NoFileReply], Resolved)
    else UpdateWith(s, chatbotId, userId, Ingest(file.value, svc, userId, chatbotId), svc.write, svc.drop)
  }

  /** `updateDocument` past the file check, given what ingesting the file gave and how the drop and the write went. */
  function UpdateWith(s: Store, chatbotId: string, userId: int, ingested: Result<seq<Entry>>,
                      write: ChromaWrite, drop: ChromaDrop): Outcome
  {
    var early := if OwnedId(s.chatbots, chatbotId, Radix10, userId).None? then [NotFoundReply] else [];
    var name := CollectionName(chatbotId);
    var (cols, failed) := Rebuild(DropCollection(s.collections, name, drop), name, ingested, write);
    Outcome(s.(collections := cols), UpdateReplies(early, failed),
            if early == [] then Resolved else Rejected(HeadersAlreadySent))
  }

  /** What `Rebuild` does to the collections: only `name` can change. */
  lemma RebuildEffect(collections: map<string, seq<Entry>>, name: string, ingested: Result<seq<Entry>>,
                      write: ChromaWrite)
    ensures var (after, failed) := Rebuild(collections, name, ingested, write);
      var existing := if name in collections then collections[name] else [];
      && (forall n :: n != name ==> (n in after <==> n in collections))
      && (forall n :: n != name && n in collections ==> after[n] == collections[n])
      && (failed.None? <==> ingested.Ok? && write.WriteOk?)
      && (ingested.Err? || write.CreateFails? ==> after == collections)
      && (ingested.Ok? && write.AddFails? ==> after == collections[name := existing])
      && (ingested.Ok? && write.WriteOk? ==> after == collections[name := existing + ingested.value])
  {
  }

  /**
   * `updateDocument` drops `chatbot_<chatbotId>` before it parses the PDF,
   * whoever owns the chatbot. When the drop succeeds: after a failure in
   * extraction, embedding or collection creation the collection is absent,
   * after a failed add it is empty, and on success it holds exactly the new
   * records, the old ones gone. When the drop fails (its error is swallowed)
   * the old records stay and the new ones are appended to them. No other
   * collection and no chatbot row changes.
   */
  lemma UpdateDocumentStore(s: Store, chatbotId: string, userId: int, file: UploadedFile, svc: Services)
    requires StoreValid(s)
    ensures var o := UpdateDocumentSpec(s, chatbotId, userId, Some(file), svc);
      var name := CollectionName(chatbotId);
      var ingested := Ingest(file, svc, userId, chatbotId);
      var kept := if svc.drop.DropFails? && name in s.collections then s.collections[name] else [];
      && o.store.chatbots == s.chatbots && o.store.nextChatbotId == s.nextChatbotId
      && (forall n :: n != name ==> (n in o.store.collections <==> n in s.collections))
      && (forall n :: n != name && n in s.collections ==> o.store.collections[n] == s.collections[n])
      && (ingested.Err? || svc.write.CreateFails? ==>
            (svc.drop.DropOk? ==> name !in o.store.collections)
            && (svc.drop.DropFails? ==> o.store.collections == s.collections))
      && (ingested.Ok? && !svc.write.CreateFails? ==> name in o.store.collections)
      && (ingested.Ok? && svc.write.AddFails? ==> o.store.collections[name] == kept)
      && (ingested.Ok? && svc.write.WriteOk? ==> o.store.collections[name] == kept + ingested.value)
      && StoreValid(o.store)
  {
    var name := CollectionName(chatbotId);
    var dropped := DropCollection(s.collections, name, svc.drop);
    var ingested := Ingest(file, svc, userId, chatbotId);
    var o := UpdateWith(s, chatbotId, userId, ingested, svc.write, svc.drop);
    assert UpdateDocumentSpec(s, chatbotId, userId, Some(file), svc) == o;
    assert o.store == s.(collections := Rebuild(dropped, name, ingested, svc.write).0);
    RebuildEffect(dropped, name, ingested, svc.write);
    DropKeepsIsolation(s.collections, name, svc.drop);
    IngestTagsTenant(file, svc, userId, chatbotId);
    if ingested.Ok? {
      WriteKeepsIsolation(dropped, chatbotId, ingested.value, svc.write);
    }
  }

  /** The replies `updateDocument` attempts once the ownership lookup has answered (`early`) and the rebuild has ended. */
  function UpdateReplies(early: seq<Reply>, failed: Option<string>): seq<Reply>
  {
    if failed.Some? then early + [UpdateErrorReply(failed.value)]
    else if early == [] then [Reply(200, MessageJson(UpdatedMessage))]
    // the success reply throws inside the try; its catch maps that error to the generic 500
    // (HeadersSentIsUpdateFailure)
    else early + [Reply(200, MessageJson(UpdatedMessage)), UpdateFailedReply]
  }

  /**
   * The replies of `updateDocument`: the owner gets exactly one, the success
   * message or the mapped error; an ownership miss gets the 404 first, then
   * the later reply throws and the handler's promise rejects.
   */
  lemma UpdateDocumentReplies(s: Store, chatbotId: string, userId: int, file: UploadedFile, svc: Services)
    ensures var o := UpdateDocumentSpec(s, chatbotId, userId, Some(file), svc);
      var name := CollectionName(chatbotId);
      var failed := Rebuild(DropCollection(s.collections, name, svc.drop), name, Ingest(file, svc, userId, chatbotId), svc.write).1;
      var last := if failed.Some? then [UpdateErrorReply(failed.value)]
                  else [Reply(200, MessageJson(UpdatedMessage))];
      if OwnedId(s.chatbots, chatbotId, Radix10, userId).Some? then o.replies == last && o.settled == Resolved
      else
        && o.replies == [NotFoundReply] + last + (if failed.Some? then [] else [UpdateFailedReply])
        && o.settled == Rejected(HeadersAlreadySent)
  {
    var ingested := Ingest(file, svc, userId, chatbotId);
    assert UpdateDocumentSpec(s, chatbotId, userId, Some(file), svc) == UpdateWith(s, chatbotId, userId, ingested, svc.write, svc.drop);
    UpdateWithReplies(s, chatbotId, userId, ingested, svc.write, svc.drop);
  }

  lemma UpdateWithReplies(s: Store, chatbotId: string, userId: int, ingested: Result<seq<Entry>>, write: ChromaWrite,
                          drop: ChromaDrop)
    ensures var o := UpdateWith(s, chatbotId, userId, ingested, write, drop);
      var name := CollectionName(chatbotId);
      var failed := Rebuild(DropCollection(s.collections, name, drop), name, ingested, write).1;
      var last := if failed.Some? then [UpdateErrorReply(failed.value)]
                  else [Reply(200, MessageJson(UpdatedMessage))];
      if OwnedId(s.chatbots, chatbotId, Radix10, userId).Some? then o.replies == last && o.settled == Resolved
      else
        && o.replies == [NotFoundReply] + last + (if failed.Some? then [] else [UpdateFailedReply])
        && o.settled == Rejected(HeadersAlreadySent)
  {
    var name := CollectionName(chatbotId);
    var failed := Rebuild(DropCollection(s.collections, name, drop), name, ingested, write).1;
    var early := if OwnedId(s.chatbots, chatbotId, Radix10, userId).None? then [NotFoundReply] else [];
    assert UpdateWith(s, chatbotId, userId, ingested, write, drop).replies == UpdateReplies(early, failed);
  }

  /**
   * As written, a caller who does not own chatbot `id` still replaces the
   * records of its collection: after a successful update `chatbot_<id>` holds
   * only the caller's new records, tagged with the caller's user id rather
   * than the owner's, while the caller was answered 404.
   */
  lemma UpdateByNonOwner(s: Store, id: nat, userId: int, file: UploadedFile, svc: Services)
    requires StoreValid(s) && id in s.chatbots && s.chatbots[id].userId != userId
    requires svc.drop.DropOk? && svc.write.WriteOk?
    requires Ingest(file, svc, userId, NatToString(id)).Ok? && Ingest(file, svc, userId, NatToString(id)).value != []
    ensures var o := UpdateDocumentSpec(s, NatToString(id), userId, Some(file), svc);
      var name := CollectionName(NatToString(id));
      && o.replies[0] == SendError("Chatbot not found", 404)
      && name in o.store.collections && o.store.collections[name] != []
      && forall k :: 0 <= k < |o.store.collections[name]| ==>
           o.store.collections[name][k].metadata.userId != s.chatbots[id].userId
  {
    OwnedIdOfDecimal(s.chatbots, id, Radix10, userId);
    UpdateDocumentStore(s, NatToString(id), userId, file, svc);
    UpdateDocumentReplies(s, NatToString(id), userId, file, svc);
    IngestTagsTenant(file, svc, userId, NatToString(id));
  }

  /** The intended `updateDocument`: an ownership miss answers 404 and returns before anything is dropped. */
  function UpdateOwnedDocumentSpec(s: Store, chatbotId: string, userId: int, file: Option<UploadedFile>,
                                   svc: Services): Outcome
  {
    if file.None? then Outcome(s, [NoFileReply], Resolved)
    else if OwnedId(s.chatbots, chatbotId, Radix10, userId).None? then Outcome(s, [NotFoundReply], Resolved)
    else UpdateDocumentSpec(s, chatbotId, userId, file, svc)
  }

  /**
   * With the return in place an ownership miss changes nothing and gets one
   * 404; the owner's request behaves as before, and the records a successful
   * rebuild leaves in the collection all carry the owner's user id.
   */
  lemma UpdateOwnedOnlyByOwner(s: Store, chatbotId: string, userId: int, file: Option<UploadedFile>, svc: Services)
    requires StoreValid(s)
    ensures var o := UpdateOwnedDocumentSpec(s, chatbotId, userId, file, svc);
      var owned := OwnedId(s.chatbots, chatbotId, Radix10, userId);
      var name := CollectionName(chatbotId);
      && |o.replies| == 1 && o.settled == Resolved
      && (o.store != s ==> owned.Some?)
      && (file.Some? && owned.None? ==> o.store == s && o.replies == [SendError("Chatbot not found", 404)])
      && (owned.Some? ==> o == UpdateDocumentSpec(s, chatbotId, userId, file, svc))
      && (file.Some? && owned.Some? && svc.drop.DropOk? && svc.write.WriteOk?
          && Ingest(file.value, svc, userId, chatbotId).Ok? ==>
            && name in o.store.collections
            && forall k :: 0 <= k < |o.store.collections[name]| ==>
                 o.store.collections[name][k].metadata.userId == s.chatbots[owned.value].userId)
  {
    var owned := OwnedId(s.chatbots, chatbotId, Radix10, userId);
    if file.Some? && owned.Some? {
      UpdateDocumentStore(s, chatbotId, userId, file.value, svc);
      UpdateDocumentReplies(s, chatbotId, userId, file.value, svc);
      IngestTagsTenant(file.value, svc, userId, chatbotId);
    }
  }

  // ------------------------------------------------------ queryChatbot etc.

  /**
   * Embed the query, read `chatbot_<chatbotId>`, take `nResults` documents,
   * build the context and the prompt, ask the completion model and send
   * `{response, context}`; `early` are the replies already sent.
   */
  function AnswerSpec(s: Store, early: seq<Reply>, chatbotId: string, query: string, nResults: nat,
                      svc: Services): Outcome
  {
    match svc.embed(query)
    case Err(m) => Outcome(s, early, Rejected(ServiceFailed(m)))
    case Ok(v) =>
      var name := CollectionName(chatbotId);
      if name !in s.collections then Outcome(s, early, Rejected(CollectionNotFound(name)))
      else
        var collection := s.collections[name];
        var context := Context([Retrieve(collection, svc.rank(collection, v), nResults)]);
        match svc.complete(Prompt(context, query))
        case Err(m) => Outcome(s, early, Rejected(ServiceFailed(m)))
        case Ok(answer) =>
          Outcome(s, early + [SendSuccess(JObject([("response", JString(answer)), ("context", JString(context))]))],
                  if early == [] then Resolved else Rejected(HeadersAlreadySent))
  }

  /** `queryChatbot`: an ownership miss sends 404 and the handler carries on. */
  function QueryChatbotSpec(s: Store, chatbotId: string, userId: int, query: string, svc: Services): Outcome
  {
    var early := if OwnedId(s.chatbots, chatbotId, AutoRadix, userId).None? then [NotFoundReply] else [];
    AnswerSpec(s, early, chatbotId, query, OwnerQueryResults, svc)
  }

  /**
   * A query never changes the store. When it answers, the context is the
   * join of at most `nResults` documents, each the document of a record
   * stored under the same raw chatbot id, and the prompt sent was built from
   * exactly that context and the query.
   */
  lemma AnswerReadsOwnTenant(s: Store, early: seq<Reply>, chatbotId: string, query: string, nResults: nat,
                             svc: Services)
    requires StoreValid(s)
    ensures var o := AnswerSpec(s, early, chatbotId, query, nResults, svc);
      && o.store == s
      && (|o.replies| > |early| ==>
            && svc.embed(query).Ok? && CollectionName(chatbotId) in s.collections
            && var collection := s.collections[CollectionName(chatbotId)];
               var docs := Retrieve(collection, svc.rank(collection, svc.embed(query).value), nResults);
               && |docs| <= nResults
               && (forall k :: 0 <= k < |docs| ==>
                     (exists j :: 0 <= j < |collection| && collection[j].metadata.chatbotId == chatbotId
                                  && collection[j].content == docs[k]))
               && svc.complete(Prompt(Join(docs, "\n"), query)).Ok?
               && o.replies == early + [SendSuccess(JObject([
                    ("response", JString(svc.complete(Prompt(Join(docs, "\n"), query)).value)),
                    ("context", JString(Join(docs, "\n")))]))])
  {
    var name := CollectionName(chatbotId);
    if svc.embed(query).Ok? && name in s.collections {
      var collection := s.collections[name];
      forall j | 0 <= j < |collection| ensures collection[j].metadata.chatbotId == chatbotId {
        assert name == CollectionName(collection[j].metadata.chatbotId);
        CollectionNameInjective(chatbotId, collection[j].metadata.chatbotId);
      }
      RetrieveStaysInTenant(collection, svc.rank(collection, svc.embed(query).value), nResults, chatbotId);
    }
  }

  /**
   * In `queryChatbot` an ownership miss answers 404 and does not stop the
   * handler: if the rest succeeds, a second reply is attempted and throws.
   * The owner's query asks for 3 documents.
   */
  lemma QueryChatbotBehaviour(s: Store, chatbotId: string, userId: int, query: string, svc: Services)
    ensures var o := QueryChatbotSpec(s, chatbotId, userId, query, svc);
      && o.store == s
      && (OwnedId(s.chatbots, chatbotId, AutoRadix, userId).None? ==>
            && |o.replies| >= 1 && o.replies[0] == SendError("Chatbot not found", 404)
            && o.settled.Rejected?)
      && o == AnswerSpec(s, if OwnedId(s.chatbots, chatbotId, AutoRadix, userId).None?
                            then [SendError("Chatbot not found", 404)] else [],
                         chatbotId, query, 3, svc)
  {
  }

  // ----------------------------------------------------- publicChatbotQuery

  /**
   * The gates of `publicChatbotQuery`, in order: unknown id 404, widget not
   * enabled 403 (whatever header is sent), missing or wrong `X-API-Key` 401;
   * `None` lets the query through.
   */
  function PublicGate(row: Option<Chatbot>, apiKeyHeader: Option<string>): (r: Option<Reply>)
    ensures row.None? ==> r == Some(SendError("Chatbot not found", 404))
    ensures row.Some? && !Truthy(row.value.apiKey) ==> r == Some(SendError("Widget not enabled for this chatbot", 403))
    ensures row.Some? && Truthy(row.value.apiKey) && apiKeyHeader != row.value.apiKey ==>
      r == Some(SendError("Invalid API key", 401))
    ensures r.None? <==> row.Some? && Truthy(row.value.apiKey) && apiKeyHeader == row.value.apiKey
  {
    if row.None? then Some(SendError("Chatbot not found", 404))
    else if !Truthy(row.value.apiKey) then Some(SendError("Widget not enabled for this chatbot", 403))
    else if !Truthy(apiKeyHeader) || apiKeyHeader.value != row.value.apiKey.value then Some(SendError("Invalid API key", 401))
    else None
  }

  function PublicChatbotQuerySpec(s: Store, id: string, query: string, apiKeyHeader: Option<string>,
                                  svc: Services): Outcome
  {
    match PublicGate(RowById(s.chatbots, id), apiKeyHeader)
    case Some(r) => Outcome(s, [r], Resolved)
    case None => AnswerSpec(s, [], id, query, PublicQueryResults, svc)
  }

  /** A gated request changes nothing and sends only the gate's reply; an admitted one asks for 5 documents. */
  lemma PublicChatbotQueryBehaviour(s: Store, id: string, query: string, apiKeyHeader: Option<string>, svc: Services)
    ensures var o := PublicChatbotQuerySpec(s, id, query, apiKeyHeader, svc);
      var gate := PublicGate(RowById(s.chatbots, id), apiKeyHeader);
      && o.store == s
      && (gate.Some? ==> o.replies == [gate.value] && o.settled == Resolved)
      && (gate.None? ==> o == AnswerSpec(s, [], id, query, 5, svc) && |o.replies| <= 1
                         && (o.replies != [] ==> o.replies[0].status == 200 && o.settled == Resolved))
  {
  }

  // ---------------------------------------------------------- deleteChatbot

  /**
   * `deleteChatbot`: an ownership miss sends 404 and does not return; the row
   * is then deleted by id alone and the collection dropped, a failed drop
   * being ignored.
   */
  function DeleteChatbotSpec(s: Store, chatbotId: string, userId: int, drop: ChromaDrop): Outcome
  {
    var early := if OwnedId(s.chatbots, chatbotId, AutoRadix, userId).None? then [NotFoundReply] else [];
    var k := ParseInt(chatbotId, AutoRadix);
    var bots := if k.Some? then s.chatbots - {k.value} else s.chatbots;
    Outcome(Store(bots, s.nextChatbotId, DropCollection(s.collections, CollectionName(chatbotId), drop)),
            early + [SendSuccess(JNull, 204)],
            if early == [] then Resolved else Rejected(HeadersAlreadySent))
  }

  /**
   * After `deleteChatbot` the row with the parsed id is gone, and so is the
   * collection `chatbot_<chatbotId>` unless its drop failed; every other row
   * and collection keeps its contents, whether or not the caller owns the
   * chatbot.
   */
  lemma DeleteChatbotBehaviour(s: Store, chatbotId: string, userId: int, drop: ChromaDrop)
    requires StoreValid(s)
    ensures var o := DeleteChatbotSpec(s, chatbotId, userId, drop);
      var k := ParseInt(chatbotId, AutoRadix);
      && o.store.nextChatbotId == s.nextChatbotId
      && (drop.DropOk? ==> forall n :: n in o.store.collections <==> n in s.collections && n != CollectionName(chatbotId))
      && (drop.DropFails? ==> o.store.collections == s.collections)
      && (forall n :: n in o.store.collections ==> o.store.collections[n] == s.collections[n])
      && (k.Some? ==> k.value !in o.store.chatbots)
      && (forall id :: id in o.store.chatbots <==> id in s.chatbots && k != Some(id))
      && (forall id :: id in o.store.chatbots ==> o.store.chatbots[id] == s.chatbots[id])
      && (OwnedId(s.chatbots, chatbotId, AutoRadix, userId).Some? ==>
            o.replies == [SendSuccess(JNull, 204)] && o.settled == Resolved)
      && (OwnedId(s.chatbots, chatbotId, AutoRadix, userId).None? ==>
            o.replies[0] == SendError("Chatbot not found", 404) && o.settled == Rejected(HeadersAlreadySent))
      && StoreValid(o.store)
  {
  }

  /** A user who does not own chatbot 1 still deletes it. */
  lemma DeleteByNonOwner()
    ensures var s := Store(map[1 := Chatbot(10, "support", None)], 2, map[]);
      var o := DeleteChatbotSpec(s, "1", 20, DropOk);
      o.replies[0].status == 404 && 1 !in o.store.chatbots
  {
    var s := Store(map[1 := Chatbot(10, "support", None)], 2, map[]);
    assert ParseInt("1", AutoRadix) == Some(1) by { ParseIntNatToString(1, AutoRadix); }
  }

  /** The intended handler: an ownership miss answers 404 and returns. */
  function DeleteOwnedChatbotSpec(s: Store, chatbotId: string, userId: int, drop: ChromaDrop): Outcome
  {
    match OwnedId(s.chatbots, chatbotId, AutoRadix, userId)
    case None => Outcome(s, [NotFoundReply], Resolved)
    case Some(id) =>
      Outcome(Store(s.chatbots - {id}, s.nextChatbotId, DropCollection(s.collections, CollectionName(chatbotId), drop)),
              [SendSuccess(JNull, 204)], Resolved)
  }

  /** With the return in place, only the owner's request changes the store, and one reply is sent. */
  lemma DeleteOwnedOnlyByOwner(s: Store, chatbotId: string, userId: int, drop: ChromaDrop)
    ensures var o := DeleteOwnedChatbotSpec(s, chatbotId, userId, drop);
      && |o.replies| == 1 && o.settled == Resolved
      && (o.store != s ==> exists id :: id in s.chatbots && s.chatbots[id].userId == userId
                                        && id !in o.store.chatbots)
      && (OwnedId(s.chatbots, chatbotId, AutoRadix, userId).Some? ==> o == DeleteChatbotSpec(s, chatbotId, userId, drop))
  {
    var owned := OwnedId(s.chatbots, chatbotId, AutoRadix, userId);
    if owned.Some? {
      var id := owned.value;
      assert id in s.chatbots && s.chatbots[id].userId == userId && id !in (s.chatbots - {id});
    }
  }

  // ----------------------------------------------------------- toggleWidget

  /** `crypto.randomBytes(32).toString('hex')` for the given random bytes. */
  function WidgetKey(randomBytes: seq<Byte>): (key: string)
    requires |randomBytes| == 32
    ensures |key| == 64 && forall k :: 0 <= k < 64 ==> IsLowerHex(key[k])
    ensures FromHex(key) == Some(randomBytes)
  {
    FromHexToHex(randomBytes);
    ToHex(randomBytes)
  }

  /**
   * `toggleWidget`: with no row the handler throws reading `apiKey`; a truthy
   * key is cleared and no reply is sent; otherwise a fresh key is stored and
   * returned.
   */
  function ToggleWidgetSpec(s: Store, chatbotId: string, userId: int, randomBytes: seq<Byte>): Outcome
    requires |randomBytes| == 32
  {
    match OwnedId(s.chatbots, chatbotId, Radix10, userId)
    case None => Outcome(s, [], Rejected(ChatbotUndefined))
    case Some(id) =>
      var row := s.chatbots[id];
      if Truthy(row.apiKey) then
        Outcome(s.(chatbots := s.chatbots[id := row.(apiKey := None)]), [], Resolved)
      else
        var key := WidgetKey(randomBytes);
        Outcome(s.(chatbots := s.chatbots[id := row.(apiKey := Some(key))]),
                [SendSuccess(JObject([("message", JString("Widget enabled")), ("apiKey", JString(key))]))],
                Resolved)
  }

  /**
   * Toggling flips the widget of the caller's chatbot: an enabled one ends
   * with no key and no reply; a disabled one ends with a 64-character
   * lower-case hexadecimal key, which the reply returns. Nothing else changes.
   */
  lemma ToggleWidgetBehaviour(s: Store, chatbotId: string, userId: int, randomBytes: seq<Byte>)
    requires |randomBytes| == 32 && StoreValid(s)
    ensures var o := ToggleWidgetSpec(s, chatbotId, userId, randomBytes);
      var owned := OwnedId(s.chatbots, chatbotId, Radix10, userId);
      && o.store.collections == s.collections && o.store.chatbots.Keys == s.chatbots.Keys
      && o.store.nextChatbotId == s.nextChatbotId
      && (owned.None? ==> o.store == s && o.replies == [] && o.settled == Rejected(ChatbotUndefined))
      && (owned.Some? ==>
            var id := owned.value;
            && o.settled == Resolved
            && (forall other :: other in s.chatbots && other != id ==> o.store.chatbots[other] == s.chatbots[other])
            && o.store.chatbots[id].userId == s.chatbots[id].userId
            && o.store.chatbots[id].name == s.chatbots[id].name
            && (Truthy(s.chatbots[id].apiKey) ==> o.store.chatbots[id].apiKey == None && o.replies == [])
            && (!Truthy(s.chatbots[id].apiKey) ==>
                  var key := o.store.chatbots[id].apiKey;
                  && key.Some? && |key.value| == 64 && (forall k :: 0 <= k < 64 ==> IsLowerHex(key.value[k]))
                  && o.replies == [SendSuccess(JObject([("message", JString("Widget enabled")),
                                                        ("apiKey", JString(key.value))]))]))
      && StoreValid(o.store)
  {
  }

  /** Toggling an enabled widget and then toggling again enables it with the new key. */
  lemma ToggleTwice(s: Store, chatbotId: string, userId: int, bytes: seq<Byte>)
    requires |bytes| == 32
    requires OwnedId(s.chatbots, chatbotId, Radix10, userId).Some?
    requires Truthy(s.chatbots[OwnedId(s.chatbots, chatbotId, Radix10, userId).value].apiKey)
    ensures var id := OwnedId(s.chatbots, chatbotId, Radix10, userId).value;
      var twice := ToggleWidgetSpec(ToggleWidgetSpec(s, chatbotId, userId, bytes).store, chatbotId, userId, bytes);
      id in twice.store.chatbots && twice.store.chatbots[id].apiKey == Some(ToHex(bytes))
  {
    var id := OwnedId(s.chatbots, chatbotId, Radix10, userId).value;
    var row := s.chatbots[id];
    var o := ToggleWidgetSpec(s, chatbotId, userId, bytes);
    assert o.store.chatbots == s.chatbots[id := row.(apiKey := None)];
    assert OwnedId(o.store.chatbots, chatbotId, Radix10, userId) == Some(id);
    var t := ToggleWidgetSpec(o.store, chatbotId, userId, bytes);
    assert t.store.chatbots[id].apiKey == Some(ToHex(bytes));
  }
}
