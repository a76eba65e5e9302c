/**
 * The chat session store: the conversation list, the selected conversation,
 * the ordered message list, the files attached to the composer and the
 * streaming buffer with its flags.
 *
 * Every asynchronous action is split at its `await`: a method for the part
 * that runs before the request and a method for its settlement, which takes
 * the request's outcome (`Ok(response)` or `Err(message)`) as a parameter.
 * Identifiers and timestamps the source draws from the clock are parameters.
 */
module ChatStore {
  import opened Wrappers
  import opened Types
  import opened Strings
  import Seqs

  const FetchFallback := "Failed to fetch conversations"
  const SelectFallback := "Failed to load conversation"
  const CreateFallback := "Failed to create conversation"
  const DeleteFallback := "Failed to delete conversation"
  const SendFallback := "Failed to send message"

  /** The part type chosen for an attached file, by the prefix of its MIME type. */
  function MediaKind(contentType: string): (k: ContentType)
    ensures k != Text
    ensures k == Image <==> StartsWith(contentType, "image/")
    ensures k == Audio <==> StartsWith(contentType, "audio/")
    ensures k == Video <==> StartsWith(contentType, "video/")
    ensures k == File <==> !StartsWith(contentType, "image/") && !StartsWith(contentType, "audio/")
                           && !StartsWith(contentType, "video/")
  {
    if StartsWith(contentType, "image/") then Image
    else if StartsWith(contentType, "audio/") then
      assert !StartsWith(contentType, "video/") by { assert contentType[0] == 'a'; }
      Audio
    else if StartsWith(contentType, "video/") then Video
    else File
  }

  predicate IsReady(f: UploadedFile)
  {
    f.status == Ready
  }

  /** The media part that stands for one attached file. */
  function FilePart(f: UploadedFile): MessageContent
  {
    MessageContent(MediaKind(f.contentType), None, Some(f.url), Some(f.filename), Some(f.contentType), None, None, None)
  }

  /**
   * The parts for the attached files that are ready, in attachment order:
   * the i-th part stands for the i-th ready file, and none is a text part.
   */
  function FileParts(fs: seq<UploadedFile>): (parts: seq<MessageContent>)
    ensures |parts| == |Seqs.Filter(fs, IsReady)|
    ensures forall i :: 0 <= i < |parts| ==> parts[i] == FilePart(Seqs.Filter(fs, IsReady)[i])
    ensures forall i :: 0 <= i < |parts| ==> parts[i].kind != Text
  {
    if fs == [] then []
    else (if IsReady(fs[0]) then [FilePart(fs[0])] else []) + FileParts(fs[1..])
  }

  /** Files none of which is ready contribute no part. */
  lemma {:induction false} NoReadyNoParts(fs: seq<UploadedFile>)
    requires forall i :: 0 <= i < |fs| ==> fs[i].status != Ready
    ensures FileParts(fs) == []
  {
    if fs != [] {
      NoReadyNoParts(fs[1..]);
    }
  }

  /** The message list without the messages carrying `id`. */
  function WithoutMessage(ms: seq<Message>, id: string): (r: seq<Message>)
    ensures forall i :: 0 <= i < |r| ==> r[i].id != id && r[i] in ms
    ensures forall i :: 0 <= i < |ms| && ms[i].id != id ==> ms[i] in r
  {
    Seqs.Filter(ms, (m: Message) => m.id != id)
  }

  /** Removing the identifier of a message just appended gives back the list it was appended to. */
  lemma RollbackRestores(ms: seq<Message>, m: Message)
    requires m.id !in MessageIds(ms)
    ensures WithoutMessage(ms + [m], m.id) == ms
  {
    var keep := (x: Message) => x.id != m.id;
    Seqs.FilterAppend(ms, [m], keep);
    Seqs.FilterKeepsAll(ms, keep);
    assert Seqs.Filter([m], keep) == [] by {
      assert [m][1..] == [];
    }
  }

  /**
   * The list after a send succeeded: the optimistic message taken out and
   * put back at the end under the server's identifier.
   */
  function Reconciled(ms: seq<Message>, optimistic: Message, serverId: string): (r: seq<Message>)
    ensures |r| >= 1 && r[|r| - 1] == optimistic.(id := serverId)
    ensures r[|r| - 1].role == optimistic.role && r[|r| - 1].content == optimistic.content
    ensures forall i :: 0 <= i < |r| - 1 ==> r[i] in ms && r[i].id != optimistic.id
    ensures forall m :: m in ms && m.id != optimistic.id ==> m in r[..|r| - 1]
    ensures r[..|r| - 1] == WithoutMessage(ms, optimistic.id)
  {
    WithoutMessage(ms, optimistic.id) + [optimistic.(id := serverId)]
  }

  /** With nothing received in between, the optimistic message is renamed in place. */
  lemma ReconcileAppended(ms: seq<Message>, m: Message, serverId: string)
    requires m.id !in MessageIds(ms)
    ensures Reconciled(ms + [m], m, serverId) == ms + [m.(id := serverId)]
  {
    RollbackRestores(ms, m);
  }

  /**
   * When the assistant's reply was committed before the send settled, the
   * renamed user message moves behind the reply.
   */
  lemma ReconcileAfterReply(ms: seq<Message>, m: Message, reply: Message, serverId: string)
    requires m.id !in MessageIds(ms) && reply.id != m.id
    ensures Reconciled(ms + [m] + [reply], m, serverId) == ms + [reply, m.(id := serverId)]
  {
    var keep := (x: Message) => x.id != m.id;
    Seqs.FilterAppend(ms + [m], [reply], keep);
    RollbackRestores(ms, m);
    Seqs.FilterKeepsAll([reply], keep);
  }

  /** The conversation list with every entry sharing `c`'s identifier replaced by `c`. */
  function ReplaceConversation(cs: seq<Conversation>, c: Conversation): (r: seq<Conversation>)
    ensures |r| == |cs|
    ensures forall i :: 0 <= i < |cs| ==> r[i] == (if cs[i].id == c.id then c else cs[i])
  {
    if cs == [] then []
    else [if cs[0].id == c.id then c else cs[0]] + ReplaceConversation(cs[1..], c)
  }

  /** A conversation the list does not hold leaves the list as it is. */
  lemma {:induction false} ReplaceAbsent(cs: seq<Conversation>, c: Conversation)
    requires forall i :: 0 <= i < |cs| ==> cs[i].id != c.id
    ensures ReplaceConversation(cs, c) == cs
  {
    if cs != [] {
      ReplaceAbsent(cs[1..], c);
    }
  }

  /** The conversation list without the conversations carrying `id`, in order. */
  function WithoutConversation(cs: seq<Conversation>, id: string): (r: seq<Conversation>)
    ensures forall i :: 0 <= i < |r| ==> r[i].id != id && r[i] in cs
    ensures forall i :: 0 <= i < |cs| && cs[i].id != id ==> cs[i] in r
  {
    Seqs.Filter(cs, (c: Conversation) => c.id != id)
  }

  /** `{...f, ...updates}`: the fields present in the update win. */
  function Merge(f: UploadedFile, u: FileUpdate): UploadedFile
  {
    UploadedFile(
      if u.id.Some? then u.id.value else f.id,
      if u.url.Some? then u.url.value else f.url,
      if u.filename.Some? then u.filename.value else f.filename,
      if u.contentType.Some? then u.contentType.value else f.contentType,
      if u.size.Some? then u.size.value else f.size,
      if u.thumbnailUrl.Some? then u.thumbnailUrl.value else f.thumbnailUrl,
      if u.transcription.Some? then u.transcription.value else f.transcription,
      if u.status.Some? then u.status.value else f.status,
      if u.progress.Some? then u.progress.value else f.progress,
      if u.error.Some? then u.error.value else f.error)
  }

  /** Applying the same update twice is applying it once; the empty update changes nothing. */
  lemma MergeLaws(f: UploadedFile, u: FileUpdate)
    ensures Merge(Merge(f, u), u) == Merge(f, u)
    ensures Merge(f, NoChange) == f
  {
  }

  /** The attached files with `u` merged into those carrying `id`, order and length kept. */
  function UpdateById(fs: seq<UploadedFile>, id: string, u: FileUpdate): (r: seq<UploadedFile>)
    ensures |r| == |fs|
    ensures forall i :: 0 <= i < |fs| ==> r[i] == (if fs[i].id == id then Merge(fs[i], u) else fs[i])
  {
    if fs == [] then []
    else [if fs[0].id == id then Merge(fs[0], u) else fs[0]] + UpdateById(fs[1..], id, u)
  }

  /** An update for an identifier no file carries is a no-op. */
  lemma UpdateUnknownIsNoop(fs: seq<UploadedFile>, id: string, u: FileUpdate)
    requires id !in FileIds(fs)
    ensures UpdateById(fs, id, u) == fs
  {
    assert forall i :: 0 <= i < |fs| ==> fs[i].id != id by {
      forall i | 0 <= i < |fs| ensures fs[i].id != id {
        assert fs[i] in fs;
      }
    }
  }

  /** Updating the last file, whose identifier no earlier file carries, touches only that file. */
  lemma UpdateLast(fs: seq<UploadedFile>, f: UploadedFile, u: FileUpdate)
    requires f.id !in FileIds(fs)
    ensures UpdateById(fs + [f], f.id, u) == fs + [Merge(f, u)]
  {
    var r := UpdateById(fs + [f], f.id, u);
    forall i | 0 <= i < |fs| ensures r[i] == fs[i] {
      assert fs[i] in fs;
      assert (fs + [f])[i] == fs[i];
    }
  }

  /** The attached files without those carrying `id`, in order. */
  function WithoutFile(fs: seq<UploadedFile>, id: string): (r: seq<UploadedFile>)
    ensures forall i :: 0 <= i < |r| ==> r[i].id != id && r[i] in fs
    ensures forall i :: 0 <= i < |fs| && fs[i].id != id ==> fs[i] in r
  {
    Seqs.Filter(fs, (f: UploadedFile) => f.id != id)
  }

  /** The chunks received so far, concatenated in arrival order. */
  function Concat(chunks: seq<string>): string
  {
    if chunks == [] then "" else chunks[0] + Concat(chunks[1..])
  }

  /** One more chunk extends the concatenation at its end. */
  lemma {:induction false} ConcatAppend(chunks: seq<string>, chunk: string)
    ensures Concat(chunks + [chunk]) == Concat(chunks) + chunk
  {
    if chunks != [] {
      assert (chunks + [chunk])[1..] == chunks[1..] + [chunk];
      ConcatAppend(chunks[1..], chunk);
    }
  }

  /**
   * Chunks arriving one after another through `addStreamChunk`: the buffer
   * grows by their concatenation in arrival order.
   */
  method StreamChunks(store: Store, chunks: seq<string>)
    modifies store`streamingContent
    ensures store.streamingContent == old(store.streamingContent) + Concat(chunks)
  {
    var k := 0;
    while k < |chunks|
      invariant 0 <= k <= |chunks|
      invariant store.streamingContent == old(store.streamingContent) + Concat(chunks[..k])
    {
      ConcatAppend(chunks[..k], chunks[k]);
      assert chunks[..k + 1] == chunks[..k] + [chunks[k]];
      Seqs.AppendAssoc(old(store.streamingContent), Concat(chunks[..k]), chunks[k]);
      store.AddStreamChunk(chunks[k]);
      k := k + 1;
    }
    assert chunks[..k] == chunks;
  }

  /** What the send endpoint answers with. */
  datatype SendResponse = SendResponse(message: Message, conversation: Conversation)

  /** What the part of `sendMessage` after the request still needs: the optimistic message and the conversation selected when the send began. */
  datatype SendTicket = SendTicket(optimistic: Message, conversation: Option<Conversation>)

  class Store {
    var conversations: seq<Conversation>
    var currentConversation: Option<Conversation>
    var messages: seq<Message>
    var isLoading: bool
    var isSending: bool
    var isStreaming: bool
    var streamingContent: string
    var pendingFiles: seq<UploadedFile>
    var error: Option<string>

    /** The store as created: empty and idle. */
    constructor()
      ensures conversations == [] && currentConversation == None && messages == []
      ensures !isLoading && !isSending && !isStreaming && streamingContent == ""
      ensures pendingFiles == [] && error == None
    {
      conversations := [];
      currentConversation := None;
      messages := [];
      isLoading := false;
      isSending := false;
      isStreaming := false;
      streamingContent := "";
      pendingFiles := [];
      error := None;
    }

    /** What fetch, select and create do before their request. */
    method BeginLoading()
      modifies this`isLoading, this`error
      ensures isLoading && error == None
    {
      isLoading := true;
      error := None;
    }

    /** `fetchConversations` once the list request settled. */
    method FetchConversationsResolve(outcome: Result<seq<Conversation>>)
      modifies this`conversations, this`isLoading, this`error
      ensures !isLoading
      ensures outcome.Ok? ==> conversations == outcome.value && error == old(error)
      ensures outcome.Err? ==> conversations == old(conversations)
                               && error == Some(OrFallback(outcome.message, FetchFallback))
    {
      match outcome
      case Ok(items) =>
        conversations := items;
        isLoading := false;
      case Err(m) =>
        isLoading := false;
        error := Some(OrFallback(m, FetchFallback));
    }

    /** `selectConversation` once the detail request settled. */
    method SelectConversationResolve(outcome: Result<ConversationWithMessages>)
      modifies this`currentConversation, this`messages, this`isLoading, this`error
      ensures !isLoading
      ensures outcome.Ok? ==> currentConversation == Some(outcome.value.conversation)
                              && messages == outcome.value.messages && error == old(error)
      ensures outcome.Err? ==> currentConversation == old(currentConversation) && messages == old(messages)
                               && error == Some(OrFallback(outcome.message, SelectFallback))
    {
      match outcome
      case Ok(detail) =>
        currentConversation := Some(detail.conversation);
        messages := detail.messages;
        isLoading := false;
      case Err(m) =>
        isLoading := false;
        error := Some(OrFallback(m, SelectFallback));
    }

    /** `createConversation` once the request settled; the result is what the caller receives or has thrown at it. */
    method CreateConversationResolve(outcome: Result<Conversation>) returns (r: Result<Conversation>)
      modifies this`conversations, this`currentConversation, this`messages, this`isLoading, this`error
      ensures r == outcome
      ensures !isLoading
      ensures outcome.Ok? ==> conversations == [outcome.value] + old(conversations)
                              && currentConversation == Some(outcome.value) && messages == []
                              && error == old(error)
      ensures outcome.Err? ==> conversations == old(conversations) && currentConversation == old(currentConversation)
                               && messages == old(messages)
                               && error == Some(OrFallback(outcome.message, CreateFallback))
    {
      r := outcome;
      match outcome
      case Ok(c) =>
        conversations := [c] + conversations;
        currentConversation := Some(c);
        messages := [];
        isLoading := false;
      case Err(m) =>
        isLoading := false;
        error := Some(OrFallback(m, CreateFallback));
    }

    /** `deleteConversation(id)` once the request settled; `failure` holds the rejection's message. */
    method DeleteConversationResolve(id: string, failure: Option<string>)
      modifies this`conversations, this`currentConversation, this`messages, this`error
      ensures failure.None? ==> conversations == WithoutConversation(old(conversations), id) && error == old(error)
      ensures failure.None? && old(currentConversation).Some? && old(currentConversation).value.id == id ==>
                currentConversation == None && messages == []
      ensures failure.None? && !(old(currentConversation).Some? && old(currentConversation).value.id == id) ==>
                currentConversation == old(currentConversation) && messages == old(messages)
      ensures failure.Some? ==> conversations == old(conversations) && currentConversation == old(currentConversation)
                                && messages == old(messages)
                                && error == Some(OrFallback(failure.value, DeleteFallback))
    {
      match failure
      case None =>
        conversations := WithoutConversation(conversations, id);
        if currentConversation.Some? && currentConversation.value.id == id {
          currentConversation := None;
          messages := [];
        }
      case Some(m) =>
        error := Some(OrFallback(m, DeleteFallback));
    }

    /** `clearCurrentConversation`. */
    method ClearCurrentConversation()
      modifies this`currentConversation, this`messages, this`pendingFiles
      ensures currentConversation == None && messages == [] && pendingFiles == []
    {
      currentConversation := None;
      messages := [];
      pendingFiles := [];
    }

    /**
     * The part of `sendMessage` before the request: one user message holding
     * the ready files' parts followed by `content` is appended; every attached
     * file is dropped, whatever its status.
     */
    method SendBegin(content: seq<MessageContent>, tempId: string, createdAt: string) returns (ticket: SendTicket)
      modifies this`messages, this`isSending, this`isStreaming, this`streamingContent, this`pendingFiles, this`error
      ensures ticket.conversation == currentConversation
      ensures ticket.optimistic == Message(tempId, if currentConversation.Some? then currentConversation.value.id else "",
                                           UserRole, FileParts(old(pendingFiles)) + content,
                                           None, None, None, None, None, None, createdAt)
      ensures messages == old(messages) + [ticket.optimistic]
      ensures isSending && isStreaming && streamingContent == "" && pendingFiles == [] && error == None
    {
      var allContent := FileParts(pendingFiles) + content;
      var conversationId := if currentConversation.Some? then currentConversation.value.id else "";
      var optimistic := Message(tempId, conversationId, UserRole, allContent, None, None, None, None, None, None, createdAt);
      ticket := SendTicket(optimistic, currentConversation);
      messages := messages + [optimistic];
      isSending := true;
      isStreaming := true;
      streamingContent := "";
      pendingFiles := [];
      error := None;
    }

    /**
     * `sendMessage` once the request succeeded. The conversation is prepended
     * only when none was selected as the send began. `isStreaming` stays set.
     */
    method SendSucceed(ticket: SendTicket, response: SendResponse)
      modifies this`messages, this`currentConversation, this`conversations, this`isSending
      ensures messages == Reconciled(old(messages), ticket.optimistic, response.message.id)
      ensures currentConversation == Some(response.conversation)
      ensures ticket.conversation.Some? ==>
                conversations == ReplaceConversation(old(conversations), response.conversation)
      ensures ticket.conversation.None? ==>
                conversations == [response.conversation] + ReplaceConversation(old(conversations), response.conversation)
      ensures !isSending
    {
      messages := Reconciled(messages, ticket.optimistic, response.message.id);
      currentConversation := Some(response.conversation);
      conversations := ReplaceConversation(conversations, response.conversation);
      isSending := false;
      if ticket.conversation.None? {
        conversations := [response.conversation] + conversations;
      }
    }

    /** `sendMessage` once the request failed: the optimistic message is withdrawn; the dropped files stay dropped. */
    method SendFail(ticket: SendTicket, message: string)
      modifies this`messages, this`isSending, this`isStreaming, this`error
      ensures messages == WithoutMessage(old(messages), ticket.optimistic.id)
      ensures !isSending && !isStreaming
      ensures error == Some(OrFallback(message, SendFallback))
    {
      messages := WithoutMessage(messages, ticket.optimistic.id);
      isSending := false;
      isStreaming := false;
      error := Some(OrFallback(message, SendFallback));
    }

    /** `addStreamChunk`. */
    method AddStreamChunk(chunk: string)
      modifies this`streamingContent
      ensures streamingContent == old(streamingContent) + chunk
    {
      streamingContent := streamingContent + chunk;
    }

    /** `completeStream`: the reply is committed and the buffer cleared in one update. */
    method CompleteStream(message: Message)
      modifies this`messages, this`isStreaming, this`streamingContent
      ensures messages == old(messages) + [message]
      ensures !isStreaming && streamingContent == ""
    {
      messages := messages + [message];
      isStreaming := false;
      streamingContent := "";
    }

    /** `addPendingFile`: appended without any check. */
    method AddPendingFile(file: UploadedFile)
      modifies this`pendingFiles
      ensures pendingFiles == old(pendingFiles) + [file]
    {
      pendingFiles := pendingFiles + [file];
    }

    /** `removePendingFile`. */
    method RemovePendingFile(fileId: string)
      modifies this`pendingFiles
      ensures pendingFiles == WithoutFile(old(pendingFiles), fileId)
    {
      pendingFiles := WithoutFile(pendingFiles, fileId);
    }

    /** `updatePendingFile`. */
    method UpdatePendingFile(fileId: string, updates: FileUpdate)
      modifies this`pendingFiles
      ensures pendingFiles == UpdateById(old(pendingFiles), fileId, updates)
    {
      pendingFiles := UpdateById(pendingFiles, fileId, updates);
    }

    /** `clearPendingFiles`. */
    method ClearPendingFiles()
      modifies this`pendingFiles
      ensures pendingFiles == []
    {
      pendingFiles := [];
    }

    /** `clearError`. */
    method ClearError()
      modifies this`error
      ensures error == None
    {
      error := None;
    }
  }

  /**
   * A send that begins and fails leaves the message list as it was, provided
   * the temporary identifier is fresh.
   */
  method SendThenFail(store: Store, content: seq<MessageContent>, tempId: string, createdAt: string, message: string)
    requires tempId !in MessageIds(store.messages)
    modifies store`messages, store`isSending, store`isStreaming, store`streamingContent, store`pendingFiles, store`error
    ensures store.messages == old(store.messages)
    ensures !store.isSending && !store.isStreaming && store.pendingFiles == []
    ensures store.error == Some(OrFallback(message, SendFallback))
  {
    var ticket := store.SendBegin(content, tempId, createdAt);
    RollbackRestores(old(store.messages), ticket.optimistic);
    store.SendFail(ticket, message);
  }
}
