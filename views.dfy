/**
 * rag_app_apis/views.py: the upload and send-message handlers over the stores
 * of users, conversations, documents, messages and chunks, and the prompt that
 * a message is answered with.
 */
module Views {
  import opened Common
  import opened PyStr
  import opened Models
  import opened Ingestion
  import opened Llm

  // ---------------------------------------------------------------------------
  // Prompt assembly
  // ---------------------------------------------------------------------------

  /** One entry of `retrieve_relevant_chunks`, with its fields as they print. */
  datatype Retrieved = Retrieved(document: string, chunkId: string, content: string)

  const NoContext: string := "No context available."
  const EntrySeparator: string := "\n\n"

  function Entry(r: Retrieved): (e: string)
    ensures |e| == 10 + |r.document| + 7 + |r.chunkId| + 2 + |r.content|
    ensures e[..10] == "Document: " && e[10..10 + |r.document|] == r.document
    ensures var d := 10 + |r.document|;
      e[d..d + 7] == "\nChunk " && e[d + 7..d + 7 + |r.chunkId|] == r.chunkId
      && e[d + 7 + |r.chunkId|..d + 9 + |r.chunkId|] == ":\n"
    ensures e[|e| - |r.content|..] == r.content
  {
    "Document: " + r.document + "\nChunk " + r.chunkId + ":\n" + r.content
  }

  function Entries(rs: seq<Retrieved>): (es: seq<string>)
    ensures |es| == |rs| && forall i :: 0 <= i < |rs| ==> es[i] == Entry(rs[i])
  {
    seq(|rs|, i requires 0 <= i < |rs| => Entry(rs[i]))
  }

  /** The context block: the entries in retrieval order, separated by a blank line. */
  function ContextText(rs: seq<Retrieved>): string
  {
    if rs == [] then NoContext else Join(EntrySeparator, Entries(rs))
  }

  function Prompt(context: string, message: string): string
  {
    "Context:\n" + context + "\n\nUser Query: " + message
  }

  lemma {:induction false} JoinStartsWithFirst(sep: string, parts: seq<string>)
    requires parts != []
    ensures |parts[0]| <= |Join(sep, parts)| && Join(sep, parts)[..|parts[0]|] == parts[0]
  {
    if |parts| > 1 {
      assert Join(sep, parts) == parts[0] + (sep + Join(sep, parts[1..]));
    }
  }

  /** The fallback text appears exactly when nothing was retrieved: every entry starts with "Document: ". */
  lemma ContextIsFallbackIff(rs: seq<Retrieved>)
    ensures ContextText(rs) == NoContext <==> rs == []
  {
    if rs != [] {
      var es := Entries(rs);
      JoinStartsWithFirst(EntrySeparator, es);
      assert ContextText(rs)[0] == es[0][0] == 'D';
      assert NoContext[0] == 'N';
    }
  }

  /** A single result is its entry alone, with no separator. */
  lemma ContextOfOne(r: Retrieved)
    ensures ContextText([r]) == Entry(r)
  {
    assert Entries([r]) == [Entry(r)];
  }

  /** One more result adds a blank line and its entry at the end: the entries keep retrieval order. */
  lemma ContextSnoc(rs: seq<Retrieved>, r: Retrieved)
    requires rs != []
    ensures ContextText(rs + [r]) == ContextText(rs) + EntrySeparator + Entry(r)
  {
    assert Entries(rs + [r]) == Entries(rs) + [Entry(r)];
    JoinSnoc(EntrySeparator, Entries(rs), Entry(r));
  }

  /** The prompt starts with "Context:\n" followed by the context, and ends with the user's message. */
  lemma PromptFraming(context: string, message: string)
    ensures |Prompt(context, message)| == 9 + |context| + 14 + |message|
    ensures var p := Prompt(context, message);
      p[..9] == "Context:\n" && p[9..9 + |context|] == context
      && p[9 + |context|..9 + |context| + 14] == "\n\nUser Query: "
      && p[|p| - |message|..] == message
  {
  }

  /** Under one context, different messages give different prompts, and the other way round. */
  lemma PromptDeterminesParts(c1: string, m1: string, c2: string, m2: string)
    requires |c1| == |c2| || |m1| == |m2|
    ensures Prompt(c1, m1) == Prompt(c2, m2) <==> c1 == c2 && m1 == m2
  {
    if Prompt(c1, m1) == Prompt(c2, m2) {
      PromptFraming(c1, m1);
      PromptFraming(c2, m2);
      assert |c1| == |c2| && |m1| == |m2|;
    }
  }

  // ---------------------------------------------------------------------------
  // Titles from the uploaded name: `document_name.split('.')[0]`
  // ---------------------------------------------------------------------------

  function TitleFromName(name: string): (r: string)
    ensures |r| <= |name| && '.' !in r && r == name[..|r|]
    ensures |r| < |name| ==> name[|r|] == '.'
  {
    BeforeFirst(name, '.')
  }

  /** The title is the unique dot-free prefix that reaches the first dot or the end of the name. */
  lemma TitleOfDottedName(stem: string, rest: string)
    requires '.' !in stem
    ensures TitleFromName(stem + "." + rest) == stem
    ensures TitleFromName(stem) == stem
  {
    var name := stem + "." + rest;
    assert name[|stem|] == '.';
    assert name[..|stem|] == stem;
    assert stem[..|stem|] == stem;
  }

  lemma TitleExamples()
    ensures TitleFromName("my.report.pdf") == "my"
    ensures TitleFromName(".txt") == ""
  {
    TitleOfDottedName("my", "report.pdf");
    assert "my" + "." + "report.pdf" == "my.report.pdf";
    TitleOfDottedName("", "txt");
    assert "" + "." + "txt" == ".txt";
  }

  // ---------------------------------------------------------------------------
  // Responses and request checks
  // ---------------------------------------------------------------------------

  datatype Body =
    | ErrorBody(error: string)
    | NotFoundBody
    | ServerErrorBody
    | UploadBody(success: bool, response: string, conversationId: nat, fileUrl: string)
    | SendBody(userId: nat, conversationId: nat, userMessage: string, assistantResponse: string)

  datatype Response = Response(status: nat, body: Body)

  function BadRequest(error: string): Response { Response(400, ErrorBody(error)) }
  const NotFound: Response := Response(404, NotFoundBody)
  /** A primary-key lookup with a non-numeric id raises ValueError: a server error. */
  const ServerError: Response := Response(500, ServerErrorBody)

  /** A request either fails a check with a response, or passes with what it looked up. */
  datatype Checked<T> = Reject(response: Response) | Accept(value: T)

  /** `get_object_or_404(User, id=user_id)`. */
  function FindUser(id: string, users: set<nat>): (r: Checked<nat>)
    ensures r.Accept? <==> ParseNat(id).Some? && ParseNat(id).value in users
    ensures r.Accept? ==> r.value == ParseNat(id).value
    ensures r.Reject? ==> r.response.status == (if IsDigits(id) then 404 else 500)
  {
    match ParseNat(id)
    case None => Reject(ServerError)
    case Some(u) => if u in users then Accept(u) else Reject(NotFound)
  }

  predicate Owns(conversations: seq<ConversationRow>, conversation: nat, user: nat) {
    exists k :: 0 <= k < |conversations| && conversations[k].id == conversation && conversations[k].user == user
  }

  /** `get_object_or_404(APIConversation, id=conversation_id, user=user)`. */
  function FindConversation(id: string, user: nat, conversations: seq<ConversationRow>): (r: Checked<nat>)
    ensures r.Accept? <==> ParseNat(id).Some? && Owns(conversations, ParseNat(id).value, user)
    ensures r.Accept? ==> r.value == ParseNat(id).value
    ensures r.Reject? ==> r.response.status == (if IsDigits(id) then 404 else 500)
  {
    match ParseNat(id)
    case None => Reject(ServerError)
    case Some(c) => if Owns(conversations, c, user) then Accept(c) else Reject(NotFound)
  }

  /** The checks of UploadDocumentView.post, in order; a pass yields the user id. */
  function UploadCheck(hasFile: bool, userId: Option<string>, users: set<nat>): (r: Checked<nat>)
    ensures r.Accept? <==> hasFile && Truthy(userId) && FindUser(userId.value, users).Accept?
    ensures r.Reject? ==> r.response.status in {400, 404, 500}
  {
    if !hasFile then Reject(BadRequest("No file provided"))
    else if !Truthy(userId) then Reject(BadRequest("User ID is required"))
    else FindUser(userId.value, users)
  }

  /** A missing file is reported before anything about the user is looked at. */
  lemma UploadChecksFileFirst(userId: Option<string>, users: set<nat>)
    ensures UploadCheck(false, userId, users) == Reject(BadRequest("No file provided"))
    ensures UploadCheck(true, None, users) == Reject(BadRequest("User ID is required"))
    ensures UploadCheck(true, Some(""), users) == Reject(BadRequest("User ID is required"))
  {
  }

  datatype SendRequest = SendRequest(user: nat, conversation: nat, text: string)

  /** The checks of SendMessageView.post, in order. */
  function SendCheck(userId: Option<string>, conversationId: Option<string>, message: Option<string>,
                     users: set<nat>, conversations: seq<ConversationRow>): (r: Checked<SendRequest>)
    ensures r.Accept? <==>
      Truthy(userId) && Truthy(conversationId) && Truthy(message)
      && FindUser(userId.value, users).Accept?
      && FindConversation(conversationId.value, FindUser(userId.value, users).value, conversations).Accept?
    ensures r.Accept? ==>
      (r.value.text == message.value && r.value.user in users
       && Owns(conversations, r.value.conversation, r.value.user))
  {
    if !Truthy(userId) || !Truthy(conversationId) then
      Reject(BadRequest("User ID and Conversation ID are required"))
    else match FindUser(userId.value, users)
      case Reject(response) => Reject(response)
      case Accept(user) =>
        match FindConversation(conversationId.value, user, conversations)
        case Reject(response) => Reject(response)
        case Accept(conversation) =>
          if !Truthy(message) then Reject(BadRequest("Message cannot be empty"))
          else Accept(SendRequest(user, conversation, message.value))
  }

  /**
   * An empty message is reported only after both lookups succeed: with an
   * unknown user or a conversation of someone else the answer is 404.
   */
  lemma EmptyMessageCheckedLast(userId: string, conversationId: string, message: Option<string>,
                                users: set<nat>, conversations: seq<ConversationRow>)
    requires userId != "" && conversationId != "" && !Truthy(message)
    ensures var r := SendCheck(Some(userId), Some(conversationId), message, users, conversations);
      r.Reject?
      && (r.response == BadRequest("Message cannot be empty") <==>
          FindUser(userId, users).Accept?
          && FindConversation(conversationId, FindUser(userId, users).value, conversations).Accept?)
  {
  }

  /** Missing ids are reported first, whatever the message and the stores. */
  lemma MissingIdsCheckedFirst(userId: Option<string>, conversationId: Option<string>, message: Option<string>,
                               users: set<nat>, conversations: seq<ConversationRow>)
    requires !Truthy(userId) || !Truthy(conversationId)
    ensures SendCheck(userId, conversationId, message, users, conversations)
      == Reject(BadRequest("User ID and Conversation ID are required"))
  {
  }

  // ---------------------------------------------------------------------------
  // The handlers over the stores
  // ---------------------------------------------------------------------------

  /**
   * An uploaded file: the name the client sent, the name and URL the storage
   * backend gives it, and what processing it will see.
   */
  datatype UploadedFile = UploadedFile(name: string, storedName: string, url: string, ingest: Environment)

  function UploadNotice(name: string): string {
    "Documento '" + name + "' procesado y listo para consultas."
  }

  function UploadReply(name: string): string {
    "Documento '" + name + "' subido y procesado."
  }

  /**
   * The rows behind the handlers. Primary keys are handed out in order, so
   * row k of a table has id k + 1; rows refer only to rows that exist.
   */
  class Backend {
    var users: set<nat>
    var conversations: seq<ConversationRow>
    var documents: seq<DocumentRow>
    var messages: seq<Message>
    const chunks: ChunkTable

    ghost predicate Valid()
      reads this, chunks
    {
      ValidTables() && ValidChunks()
    }

    ghost predicate ValidTables()
      reads this
    {
      (forall k :: 0 <= k < |conversations| ==>
        conversations[k].id == k + 1 && conversations[k].user in users)
      && (forall k :: 0 <= k < |documents| ==>
        documents[k].id == k + 1 && documents[k].user in users
        && documents[k].conversation.Some? && 1 <= documents[k].conversation.value <= |conversations|)
      && (forall k :: 0 <= k < |messages| ==>
        1 <= messages[k].conversation <= |conversations| && messages[k].sender in users)
    }

    ghost predicate ValidChunks()
      reads this, chunks
    {
      forall j :: 0 <= j < |chunks.rows| ==> 1 <= chunks.rows[j].document <= |documents|
    }

    constructor (users: set<nat>)
      ensures Valid() && fresh(chunks)
      ensures this.users == users && conversations == [] && documents == [] && messages == [] && chunks.rows == []
    {
      this.users := users;
      conversations := [];
      documents := [];
      messages := [];
      chunks := new ChunkTable();
    }

    /** `APIMessage.objects.create(...)`: the role defaults to "user". */
    method CreateMessage(conversation: nat, sender: nat, text: string, role: Role := User)
      requires Valid() && 1 <= conversation <= |conversations| && sender in users
      modifies this`messages
      ensures Valid()
      ensures messages == old(messages) + [Message(conversation, sender, role, text)]
    {
      messages := messages + [Message(conversation, sender, role, text)];
    }

    /**
     * UploadDocumentView.post: check, create the conversation and the document
     * titled after the name, process the document, add the notice message, and
     * answer 201 whatever processing did.
     */
    method Upload(file: Option<UploadedFile>, userId: Option<string>) returns (response: Response)
      requires Valid()
      modifies this, chunks
      ensures Valid() && users == old(users)
      ensures var check := UploadCheck(file.Some?, userId, old(users));
        check.Reject? ==>
          response == check.response && conversations == old(conversations)
          && documents == old(documents) && messages == old(messages) && chunks.rows == old(chunks.rows)
      ensures var check := UploadCheck(file.Some?, userId, old(users));
        check.Accept? ==>
          var user := check.value;
          var name := file.value.name;
          var conversation := |old(conversations)| + 1;
          var document := |old(documents)| + 1;
          var run := Ingest(document, file.value.ingest);
          response == Response(201, UploadBody(true, UploadReply(name), conversation, file.value.url))
          && conversations == old(conversations)
             + [ConversationRow(conversation, user, Some(SavedTitle(Some(TitleFromName(name)), None)))]
          && documents == old(documents)
             + [DocumentRow(document, user, Some(conversation), file.value.storedName, TitleFromName(name),
                            run.outcome.Indexed?)]
          && messages == old(messages) + [Message(conversation, user, User, UploadNotice(name))]
          && chunks.rows == old(chunks.rows) + run.rows
    {
      var check := UploadCheck(file.Some?, userId, users);
      if check.Reject? {
        return check.response;
      }
      response := StoreUpload(check.value, file.value);
    }

    /** What UploadDocumentView.post does once the checks pass. */
    method StoreUpload(user: nat, file: UploadedFile) returns (response: Response)
      requires Valid() && user in users
      modifies this, chunks
      ensures Valid() && users == old(users)
      ensures response == Response(201, UploadBody(true, UploadReply(file.name), |old(conversations)| + 1, file.url))
      ensures conversations == old(conversations)
        + [ConversationRow(|old(conversations)| + 1, user, Some(SavedTitle(Some(TitleFromName(file.name)), None)))]
      ensures documents == old(documents)
        + [DocumentRow(|old(documents)| + 1, user, Some(|old(conversations)| + 1), file.storedName, TitleFromName(file.name),
                       Ingest(|old(documents)| + 1, file.ingest).outcome.Indexed?)]
      ensures messages == old(messages) + [Message(|old(conversations)| + 1, user, User, UploadNotice(file.name))]
      ensures chunks.rows == old(chunks.rows) + Ingest(|old(documents)| + 1, file.ingest).rows
    {
      var name := file.name;
      var title := TitleFromName(name);
      var conversation := CreateConversation(user, Some(title));
      var document := CreateDocument(user, conversation, file.storedName, title);
      ghost var before := chunks.rows;
      var outcome := ProcessDocument(document, file.ingest, chunks);
      IngestRowsBelong(document.id, file.ingest);
      ChunksOfNewDocument(before, Ingest(document.id, file.ingest).rows);
      SaveDocument(document);
      CreateMessage(conversation, user, UploadNotice(name));
      response := Response(201, UploadBody(true, UploadReply(name), conversation, file.url));
    }

    /** Rows added for the newest document keep every chunk row pointing at a stored document. */
    lemma ChunksOfNewDocument(old_rows: seq<Chunk>, added: seq<Chunk>)
      requires |documents| > 0 && chunks.rows == old_rows + added
      requires forall j :: 0 <= j < |old_rows| ==> 1 <= old_rows[j].document <= |documents|
      requires forall j :: 0 <= j < |added| ==> added[j].document == |documents|
      ensures ValidChunks()
    {
    }

    /** `APIConversation.objects.create(user=user, title=title)`: `save()` settles the title first. */
    method CreateConversation(user: nat, title: Option<string>) returns (id: nat)
      requires Valid() && user in users
      modifies this`conversations
      ensures Valid()
      ensures id == |old(conversations)| + 1
      ensures conversations == old(conversations) + [ConversationRow(id, user, Some(SavedTitle(title, None)))]
    {
      var conversation := new Conversation(|conversations| + 1, user, title);
      NewConversationHasNoMessages(conversation.id);
      conversation.Save(FirstMessageText(messages, conversation.id));
      conversations := conversations + [conversation.Row()];
      id := conversation.id;
    }

    /** `APIDocument.objects.create(...)`: a new row, not processed yet. */
    method CreateDocument(user: nat, conversation: nat, fileName: string, title: string) returns (doc: Document)
      requires Valid() && user in users && 1 <= conversation <= |conversations|
      modifies this`documents
      ensures Valid() && fresh(doc)
      ensures doc.id == |old(documents)| + 1 && doc.user == user && doc.conversation == Some(conversation)
      ensures doc.fileName == fileName && doc.title == title && !doc.processed
      ensures documents == old(documents) + [doc.Row()]
    {
      doc := new Document(|documents| + 1, user, Some(conversation), fileName, title);
      documents := documents + [doc.Row()];
    }

    /** `document.save()`: the stored row takes the document's current fields. */
    method SaveDocument(doc: Document)
      requires Valid() && 1 <= doc.id <= |documents| && doc.id == documents[doc.id - 1].id
      requires doc.user in users && doc.conversation.Some? && 1 <= doc.conversation.value <= |conversations|
      modifies this`documents
      ensures Valid()
      ensures documents == old(documents)[doc.id - 1 := doc.Row()]
    {
      documents := documents[doc.id - 1 := doc.Row()];
    }

    /** No message refers to a conversation id that is not handed out yet. */
    lemma NewConversationHasNoMessages(id: nat)
      requires Valid() && id == |conversations| + 1
      ensures FirstMessageText(messages, id) == None
    {
    }

    /**
     * SendMessageView.post: check, store the user's message, ask the model with
     * the prompt built from the retrieved chunks, store its answer.
     */
    method Send(userId: Option<string>, conversationId: Option<string>, message: Option<string>,
                retrieve: (string, nat) -> seq<Retrieved>, llm: ChatModel)
      returns (response: Response)
      requires Valid()
      modifies this`messages
      ensures Valid()
      ensures var check := SendCheck(userId, conversationId, message, users, conversations);
        check.Reject? ==> response == check.response && messages == old(messages)
      ensures var check := SendCheck(userId, conversationId, message, users, conversations);
        check.Accept? ==>
          var r := check.value;
          var reply := QueryLlm(llm, Prompt(ContextText(retrieve(r.text, r.conversation)), r.text));
          messages == old(messages) + [Message(r.conversation, r.user, User, r.text),
                                       Message(r.conversation, r.user, Assistant, reply)]
          && response == Response(200, SendBody(r.user, r.conversation, r.text, reply))
    {
      var check := SendCheck(userId, conversationId, message, users, conversations);
      if check.Reject? {
        return check.response;
      }
      var request := check.value;
      OwnedConversationExists(request.conversation, request.user);
      CreateMessage(request.conversation, request.user, request.text, User);
      var relevant := retrieve(request.text, request.conversation);
      var prompt := Prompt(ContextText(relevant), request.text);
      var reply := QueryLlm(llm, prompt);
      CreateMessage(request.conversation, request.user, reply, Assistant);
      response := Response(200, SendBody(request.user, request.conversation, request.text, reply));
    }

    /** A conversation found by id and owner is one of the stored rows. */
    lemma OwnedConversationExists(conversation: nat, user: nat)
      requires Valid() && Owns(conversations, conversation, user)
      ensures 1 <= conversation <= |conversations| && user in users
    {
    }
  }
}
