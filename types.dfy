/**
 * The records the chat client exchanges with its backend and keeps in its
 * stores: accounts, messages and their content parts, conversations, uploaded
 * files, toasts and the modal.
 */
module Types {
  import opened Wrappers

  /** An account, as the authentication endpoints return it. */
  datatype Plan = Free | Pro | Enterprise

  datatype User = User(
    id: string,
    email: string,
    name: string,
    avatarUrl: Option<string>,
    plan: Plan,
    createdAt: string,
    updatedAt: string)

  /** Who wrote a message: `'user' | 'assistant' | 'system'`. */
  datatype Role = UserRole | AssistantRole | SystemRole

  /** The `type` tag of a content part. */
  datatype ContentType = Text | Image | Audio | Video | File

  /** One part of a message: text, or a reference to an uploaded medium. */
  datatype MessageContent = MessageContent(
    kind: ContentType,
    text: Option<string>,
    url: Option<string>,
    filename: Option<string>,
    mimeType: Option<string>,
    thumbnailUrl: Option<string>,
    duration: Option<nat>,
    transcription: Option<string>)

  /** A text part carrying `t`. */
  function TextPart(t: string): MessageContent
  {
    MessageContent(Text, Some(t), None, None, None, None, None, None)
  }

  datatype Message = Message(
    id: string,
    conversationId: string,
    role: Role,
    content: seq<MessageContent>,
    modelUsed: Option<string>,
    promptUsed: Option<string>,
    tokensInput: Option<int>,
    tokensOutput: Option<int>,
    cost: Option<real>,
    latencyMs: Option<int>,
    createdAt: string)

  /** The identifiers of a message list. */
  function MessageIds(ms: seq<Message>): set<string>
  {
    set m | m in ms :: m.id
  }

  datatype Conversation = Conversation(
    id: string,
    userId: string,
    title: string,
    modelPreference: Option<string>,
    createdAt: string,
    updatedAt: string,
    messageCount: int,
    lastMessagePreview: Option<string>)

  /** A conversation as the detail endpoint returns it, with its history. */
  datatype ConversationWithMessages = ConversationWithMessages(
    conversation: Conversation,
    messages: seq<Message>)

  /** `'uploading' | 'processing' | 'ready' | 'error'`. */
  datatype FileStatus = Uploading | Processing | Ready | Error

  /** A file attached to the composer, before it becomes part of a message. */
  datatype UploadedFile = UploadedFile(
    id: string,
    url: string,
    filename: string,
    contentType: string,
    size: int,
    thumbnailUrl: Option<string>,
    transcription: Option<string>,
    status: FileStatus,
    progress: int,
    error: Option<string>)

  /** The identifiers of a pending-file list. */
  function FileIds(fs: seq<UploadedFile>): set<string>
  {
    set f | f in fs :: f.id
  }

  /** `Partial<UploadedFile>`: a field is overwritten exactly when it is present. */
  datatype FileUpdate = FileUpdate(
    id: Option<string>,
    url: Option<string>,
    filename: Option<string>,
    contentType: Option<string>,
    size: Option<int>,
    thumbnailUrl: Option<Option<string>>,
    transcription: Option<Option<string>>,
    status: Option<FileStatus>,
    progress: Option<int>,
    error: Option<Option<string>>)

  /** The update that sets no field. */
  const NoChange := FileUpdate(None, None, None, None, None, None, None, None, None, None)

  datatype ToastKind = SuccessToast | ErrorToast | WarningToast | InfoToast

  datatype Toast = Toast(
    id: string,
    kind: ToastKind,
    title: string,
    message: Option<string>,
    duration: Option<int>)

  /** `Omit<Toast, 'id'>`: what a caller hands to `addToast`. */
  datatype ToastDraft = ToastDraft(
    kind: ToastKind,
    title: string,
    message: Option<string>,
    duration: Option<int>)

  datatype ModalKind = SettingsModal | NewChatModal | UploadModal | ConfirmModal

  /** The modal's state; `data` stands for the opaque payload handed to `openModal`. */
  datatype ModalState = ModalState(isOpen: bool, kind: Option<ModalKind>, data: Option<string>)
}
