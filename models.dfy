/**
 * rag_app_apis/models.py: the upload validators, the rows of the four tables,
 * and the title rule that APIConversation.save applies before persisting.
 */
module Models {
  import opened Common
  import opened PyStr

  // ---------------------------------------------------------------------------
  // Field validators
  // ---------------------------------------------------------------------------

  /** Passing a validator, or the message of the ValidationError it raises. */
  datatype Check = Accepted | Rejected(message: string)

  const AllowedExtensions: seq<string> := [".pdf", ".txt", ".docx", ".md"]

  /** 10 MB, inclusive. */
  const MaxFileSize: nat := 10 * 1024 * 1024

  const InvalidFormatMessage: string := "Invalid format. Allowed: " + Join(", ", AllowedExtensions)
  const FileTooLargeMessage: string := "File too large. Maximum allowed size is 10MB."

  /** validate_file_extension: the lower-cased `os.path.splitext` extension must be allowed. */
  function ValidateFileExtension(name: string): (r: Check)
    ensures r.Rejected? ==> r.message == InvalidFormatMessage
  {
    if Lower(Ext(name)) in AllowedExtensions then Accepted else Rejected(InvalidFormatMessage)
  }

  /** validate_file_size. */
  function ValidateFileSize(size: nat): (r: Check)
    ensures r.Rejected? ==> r.message == FileTooLargeMessage
  {
    if size > MaxFileSize then Rejected(FileTooLargeMessage) else Accepted
  }

  /**
   * Only the last extension of the base name decides, in either letter case:
   * "x.exe.txt" is accepted and "x.pdf.exe" rejected.
   */
  lemma AcceptsByLastExtension(stem: string, x: string)
    requires HasNamedBase(stem)
    requires '.' !in x && '/' !in x
    ensures ValidateFileExtension(stem + "." + x).Accepted? <==> Lower("." + x) in AllowedExtensions
  {
    ExtOfAppended(stem, x);
  }

  /** A name whose last component has no dot has no extension and is rejected. */
  lemma RejectsWithoutExtension(name: string)
    requires forall j :: RFind(name, '/') < j < |name| ==> name[j] != '.'
    ensures ValidateFileExtension(name).Rejected?
  {
    ExtWithoutDot(name);
    assert Lower("") == "";
  }

  /** The extension check does not see letter case. */
  lemma ExtensionCheckIgnoresCase(name: string)
    ensures ValidateFileExtension(Lower(name)) == ValidateFileExtension(name)
  {
    ExtLower(name);
    LowerIdempotent(Ext(name));
  }

  /** A file name without directories whose first character is not a dot. */
  lemma ExtOfPlainName(stem: string, x: string)
    requires stem != [] && stem[0] != '.' && '/' !in stem
    requires '.' !in x && '/' !in x
    ensures Ext(stem + "." + x) == "." + x
  {
    RFindAppend([], stem, '/');
    assert [] + stem == stem;
    ExtOfAppended(stem, x);
  }

  lemma UpperCaseExtensionAccepted()
    ensures ValidateFileExtension("A.PDF").Accepted?
  {
    ExtOfPlainName("A", "PDF");
    assert "A" + "." + "PDF" == "A.PDF";
    assert "." + "PDF" == ".PDF";
    assert Lower(".PDF")[1] == 'p';
    assert Lower(".PDF") == ".pdf";
  }

  /** Only the last extension counts: "x.exe.txt" is accepted. */
  lemma LastExtensionAccepted()
    ensures ValidateFileExtension("x.exe.txt").Accepted?
  {
    ExtOfPlainName("x.exe", "txt");
    assert "x.exe" + "." + "txt" == "x.exe.txt";
    LowerKeepsTxt();
  }

  lemma LowerKeepsTxt()
    ensures Lower(".txt") == ".txt"
  {
    assert Lower(".txt")[1] == 't' && Lower(".txt")[2] == 'x' && Lower(".txt")[3] == 't';
  }

  /** Only the last extension counts: "x.pdf.exe" is rejected. */
  lemma LastExtensionRejected()
    ensures ValidateFileExtension("x.pdf.exe").Rejected?
  {
    assert Ext("x.pdf.exe") == ".exe" by {
      ExtOfPlainName("x.pdf", "exe");
      assert "x.pdf" + "." + "exe" == "x.pdf.exe";
    }
    assert Lower(".exe")[1] == 'e';
  }

  /** Names without an extension, and ".pdf" (a leading dot is not an extension), are rejected. */
  lemma NamesWithoutExtensionRejected()
    ensures ValidateFileExtension("report").Rejected?
    ensures ValidateFileExtension(".pdf").Rejected?
  {
    RFindAppend([], "report", '/');
    assert [] + "report" == "report";
    RejectsWithoutExtension("report");
    RFindAppend([], ".pdf", '/');
    assert [] + ".pdf" == ".pdf";
    assert RFind(".pdf", '.') == 0 by {
      assert ".pdf" == ['.'] + "pdf";
      RFindAppend(['.'], "pdf", '.');
    }
    assert Lower("") == "";
  }

  /** The size limit is inclusive: exactly the sizes up to 10485760 bytes pass. */
  lemma SizeLimit(size: nat)
    ensures MaxFileSize == 10485760
    ensures ValidateFileSize(size).Accepted? <==> size <= 10485760
  {
  }

  // ---------------------------------------------------------------------------
  // Rows
  // ---------------------------------------------------------------------------

  /** APIMessage.ROLE_CHOICES. */
  datatype Role = User | Assistant

  function RoleValue(role: Role): string {
    match role
    case User => "user"
    case Assistant => "assistant"
  }

  /** An APIMessage row; rows are kept in timestamp order, which is creation order. */
  datatype Message = Message(conversation: nat, sender: nat, role: Role, text: string)

  /** An APIChunk row; `embedding` is the JSON list of floats. */
  type Vector = seq<real>
  datatype Chunk = Chunk(document: nat, content: string, embedding: Vector)

  /** An APIConversation row as stored. */
  datatype ConversationRow = ConversationRow(id: nat, user: nat, title: Option<string>)

  /** An APIDocument row as stored. */
  datatype DocumentRow = DocumentRow(
    id: nat, user: nat, conversation: Option<nat>, fileName: string, title: string, processed: bool)

  // ---------------------------------------------------------------------------
  // The conversation title rule
  // ---------------------------------------------------------------------------

  const TitleLength: nat := 30
  const DefaultConversationTitle: string := "New Conversation"

  /** Python truthiness of the nullable title column: None and "" are both false. */
  predicate Truthy(title: Option<string>) {
    title.Some? && title.value != ""
  }

  /** Index of the first message of `conversation` in timestamp order (or `|messages|`). */
  function FirstMessageIndex(messages: seq<Message>, conversation: nat): (k: nat)
    ensures k <= |messages|
    ensures forall j :: 0 <= j < k ==> messages[j].conversation != conversation
    ensures k < |messages| ==> messages[k].conversation == conversation
  {
    if |messages| == 0 || messages[0].conversation == conversation then 0
    else FirstMessageIndex(messages[1..], conversation) + 1
  }

  /** The text of `messages_api.first()`, if the conversation has a message. */
  function FirstMessageText(messages: seq<Message>, conversation: nat): Option<string>
  {
    var k := FirstMessageIndex(messages, conversation);
    if k < |messages| then Some(messages[k].text) else None
  }

  /**
   * The title `save` stores, reading the conversation's first message through
   * its related name `messages_api`: a truthy title stays; otherwise the first
   * 30 characters of the first message, or "New Conversation" when there is none.
   */
  function SavedTitle(title: Option<string>, firstMessage: Option<string>): (r: string)
    ensures Truthy(title) ==> r == title.value
    ensures !Truthy(title) && firstMessage.None? ==> r == DefaultConversationTitle
    ensures !Truthy(title) && firstMessage.Some? ==>
      |r| == (if |firstMessage.value| < TitleLength then |firstMessage.value| else TitleLength)
      && r == firstMessage.value[..|r|]
  {
    if Truthy(title) then title.value
    else match firstMessage
      case Some(text) => Take(text, TitleLength)
      case None => DefaultConversationTitle
  }

  /**
   * After `save` the title is truthy, unless it was taken from an empty first
   * message; and a second `save` leaves it as it is.
   */
  lemma SaveSettlesTitle(title: Option<string>, firstMessage: Option<string>, later: Option<string>)
    ensures var t := SavedTitle(title, firstMessage);
      (t == "" <==> !Truthy(title) && firstMessage == Some(""))
      && (t != "" ==> SavedTitle(Some(t), later) == t)
  {
  }

  /**
   * `save` as the source has it: it reads `self.messages`, which APIConversation
   * does not have (the related name is `messages_api`), so a falsy title raises
   * AttributeError instead of being filled in.
   */
  function SavedTitleAsWritten(title: Option<string>, firstMessage: Option<string>): (r: Result<string>)
    ensures r.Ok? <==> Truthy(title)
    ensures r.Ok? ==> r.value == SavedTitle(title, firstMessage)
  {
    if Truthy(title) then Ok(title.value)
    else Raised("'APIConversation' object has no attribute 'messages'")
  }

  /** A conversation created with an empty title (upload of ".txt") cannot be saved as written. */
  lemma AsWrittenSaveRaisesOnEmptyTitle()
    ensures SavedTitleAsWritten(Some(""), None).Raised?
    ensures SavedTitle(Some(""), None) == DefaultConversationTitle
  {
  }

  // ---------------------------------------------------------------------------
  // Model instances whose fields are updated in place
  // ---------------------------------------------------------------------------

  class Conversation {
    const id: nat
    const user: nat
    var title: Option<string>

    constructor (id: nat, user: nat, title: Option<string>)
      ensures this.id == id && this.user == user && this.title == title
    {
      this.id := id;
      this.user := user;
      this.title := title;
    }

    /** `save()`: fills in a falsy title before the row is written. */
    method Save(firstMessage: Option<string>)
      modifies this`title
      ensures title == Some(SavedTitle(old(title), firstMessage))
    {
      if !Truthy(title) {
        match firstMessage
        case Some(text) => title := Some(Take(text, TitleLength));
        case None => title := Some(DefaultConversationTitle);
      }
    }

    function Row(): (r: ConversationRow)
      reads this
      ensures r.id == id && r.user == user && r.title == title
    {
      ConversationRow(id, user, title)
    }
  }

  class Document {
    const id: nat
    const user: nat
    const conversation: Option<nat>
    const fileName: string
    const title: string
    var processed: bool

    /** A new document is not processed (`processed` defaults to False). */
    constructor (id: nat, user: nat, conversation: Option<nat>, fileName: string, title: string)
      ensures this.id == id && this.user == user && this.conversation == conversation
      ensures this.fileName == fileName && this.title == title
      ensures !processed
    {
      this.id := id;
      this.user := user;
      this.conversation := conversation;
      this.fileName := fileName;
      this.title := title;
      processed := false;
    }

    function Row(): (r: DocumentRow)
      reads this
      ensures r.id == id && r.conversation == conversation && r.title == title && r.processed == processed
    {
      DocumentRow(id, user, conversation, fileName, title, processed)
    }
  }

  /** The APIChunk table: rows are only ever added. */
  class ChunkTable {
    var rows: seq<Chunk>

    constructor ()
      ensures rows == []
    {
      rows := [];
    }

    /** `APIChunk.objects.bulk_create(batch)`. */
    method BulkCreate(batch: seq<Chunk>)
      modifies this
      ensures rows == old(rows) + batch
    {
      rows := rows + batch;
    }

    /** `APIChunk.objects.create(...)`. */
    method Create(row: Chunk)
      modifies this
      ensures rows == old(rows) + [row]
    {
      rows := rows + [row];
    }
  }
}
