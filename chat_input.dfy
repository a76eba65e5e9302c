/**
 * The message composer: when a submit may go ahead, the payload it sends,
 * the per-file upload lifecycle driven through the chat store's
 * pending-file operations, and the icon of a file preview.
 *
 * Each upload's progress reports and settlement are given as an
 * `UploadRun`; identifiers the source draws at random are parameters.
 */
module ChatInput {
  import opened Wrappers
  import opened Types
  import opened Strings
  import ChatStore
  import UiStore
  import Files
  import Seqs

  /** The guard of `handleSubmit`, shared with the send button's `disabled`. */
  predicate CanSubmit(message: string, pendingCount: nat, isSending: bool)
  {
    !((Trim(message) == "" && pendingCount == 0) || isSending)
  }

  /** A submit goes ahead iff nothing is being sent and there is a non-blank character or an attached file. */
  lemma CanSubmitIff(message: string, pendingCount: nat, isSending: bool)
    ensures CanSubmit(message, pendingCount, isSending) <==>
              !isSending && ((exists k :: 0 <= k < |message| && !IsWhitespace(message[k])) || pendingCount > 0)
  {
  }

  /** What `handleSubmit` hands to `sendMessage`: one text part, the trimmed text, even when empty. */
  function SubmitPayload(message: string): seq<MessageContent>
  {
    [TextPart(Trim(message))]
  }

  /** With only blank text and files attached, the payload is still one text part, holding the empty string. */
  lemma BlankPayload(message: string)
    requires forall k :: 0 <= k < |message| ==> IsWhitespace(message[k])
    ensures SubmitPayload(message) == [TextPart("")]
  {
  }

  /**
   * `handleSubmit`, with the send's settlement given as `outcome` and no
   * other store event in between. The store catches a failed send itself,
   * so the text box is cleared on success and failure alike.
   */
  method HandleSubmit(store: ChatStore.Store, message: string, tempId: string, createdAt: string,
                      outcome: Result<ChatStore.SendResponse>) returns (text: string, submitted: bool)
    requires CanSubmit(message, |store.pendingFiles|, store.isSending) ==> tempId !in MessageIds(store.messages)
    modifies store`messages, store`isSending, store`isStreaming, store`streamingContent, store`pendingFiles,
             store`error, store`currentConversation, store`conversations
    ensures submitted == CanSubmit(message, |old(store.pendingFiles)|, old(store.isSending))
    ensures !submitted ==> text == message && store.messages == old(store.messages)
                           && store.pendingFiles == old(store.pendingFiles) && store.error == old(store.error)
                           && store.isSending == old(store.isSending) && store.isStreaming == old(store.isStreaming)
                           && store.streamingContent == old(store.streamingContent)
                           && store.currentConversation == old(store.currentConversation)
                           && store.conversations == old(store.conversations)
    ensures submitted ==> text == "" && store.pendingFiles == [] && !store.isSending
    ensures submitted && outcome.Ok? ==>
              store.messages == old(store.messages)
                + [Message(outcome.value.message.id,
                           if old(store.currentConversation).Some? then old(store.currentConversation).value.id else "",
                           UserRole, ChatStore.FileParts(old(store.pendingFiles)) + SubmitPayload(message),
                           None, None, None, None, None, None, createdAt)]
              && store.isStreaming && store.currentConversation == Some(outcome.value.conversation)
    ensures submitted && outcome.Err? ==>
              store.messages == old(store.messages) && !store.isStreaming
              && store.error == Some(OrFallback(outcome.message, ChatStore.SendFallback))
  {
    submitted := CanSubmit(message, |store.pendingFiles|, store.isSending);
    if !submitted {
      text := message;
      return;
    }
    text := "";
    var ticket := store.SendBegin(SubmitPayload(message), tempId, createdAt);
    match outcome
    case Ok(response) =>
      ChatStore.ReconcileAppended(old(store.messages), ticket.optimistic, response.message.id);
      store.SendSucceed(ticket, response);
    case Err(m) =>
      ChatStore.RollbackRestores(old(store.messages), ticket.optimistic);
      store.SendFail(ticket, m);
  }

  /** A file the user picked: its name, MIME type and size in bytes. */
  datatype SelectedFile = SelectedFile(name: string, mimeType: string, size: int)

  /** How one upload went: the progress percentages reported, in order, and the request's settlement. */
  datatype UploadRun = UploadRun(progress: seq<int>, response: Result<Files.FileUploadResponse>)

  /** The entry added for an accepted file before its upload starts. */
  function PendingEntry(f: SelectedFile, tempId: string): (e: UploadedFile)
    ensures e.id == tempId && e.url == "" && e.status == Uploading && e.progress == 0
    ensures e.filename == f.name && e.contentType == f.mimeType && e.size == f.size
  {
    UploadedFile(tempId, "", f.name, f.mimeType, f.size, None, None, Uploading, 0, None)
  }

  /** The update a progress report makes: the progress field only. */
  function ProgressUpdate(p: int): FileUpdate
  {
    NoChange.(progress := Some(p))
  }

  /** An entry after the progress reports `ps`: only its progress moved, to the last report. */
  function WithProgress(e: UploadedFile, ps: seq<int>): (r: UploadedFile)
    ensures r == e.(progress := if ps == [] then e.progress else ps[|ps| - 1])
  {
    if ps == [] then e else ChatStore.Merge(WithProgress(e, ps[..|ps| - 1]), ProgressUpdate(ps[|ps| - 1]))
  }

  /** The update made once the upload settled. */
  function SettleUpdate(result: Result<UploadedFile>): FileUpdate
  {
    match result
    case Ok(u) => NoChange.(id := Some(u.id), url := Some(u.url), status := Some(Ready), progress := Some(100))
    case Err(m) => NoChange.(status := Some(Error), error := Some(Some(m)))
  }

  /** Progress is reported only once the upload request is under way, that is after its guards passed. */
  function ReportedProgress(f: SelectedFile, run: UploadRun, documentTypes: seq<string>): seq<int>
  {
    if Files.ValidateUpload(f.size, f.mimeType, documentTypes).None? then run.progress else []
  }

  /** The entry of an accepted file once its upload settled. */
  function FinalEntry(f: SelectedFile, tempId: string, run: UploadRun, documentTypes: seq<string>): UploadedFile
  {
    var result := Files.UploadFile(f.size, f.mimeType, documentTypes, run.response);
    ChatStore.Merge(WithProgress(PendingEntry(f, tempId), ReportedProgress(f, run, documentTypes)), SettleUpdate(result))
  }

  /**
   * A settled entry keeps the file's name, type and size; it is ready, under
   * the server's identifier and address with progress 100, iff the upload
   * succeeded, and otherwise is in error under its temporary identifier.
   */
  lemma FinalEntryOutcome(f: SelectedFile, tempId: string, run: UploadRun, documentTypes: seq<string>)
    ensures var e := FinalEntry(f, tempId, run, documentTypes);
            var result := Files.UploadFile(f.size, f.mimeType, documentTypes, run.response);
            && e.filename == f.name && e.contentType == f.mimeType && e.size == f.size
            && (e.status == Ready <==> result.Ok?)
            && (result.Ok? ==> e.id == run.response.value.id && e.url == run.response.value.url && e.progress == 100)
            && (result.Err? ==> e.status == Error && e.id == tempId && e.url == "" && e.error == Some(result.message))
  {
  }

  /** The entry one file leaves in the pending list: its settled upload when its type is allowed, none otherwise. */
  function EntryFor(f: SelectedFile, tempId: string, run: UploadRun, documentTypes: seq<string>): seq<UploadedFile>
  {
    if Files.IsAllowedType(f.mimeType, documentTypes) then [FinalEntry(f, tempId, run, documentTypes)] else []
  }

  /** The entries a selection leaves in the pending list, in selection order: one per allowed file. */
  function SelectionEntries(files: seq<SelectedFile>, tempIds: seq<string>, runs: seq<UploadRun>,
                            documentTypes: seq<string>): seq<UploadedFile>
    requires |tempIds| == |files| && |runs| == |files|
  {
    if files == [] then []
    else
      var n := |files| - 1;
      SelectionEntries(files[..n], tempIds[..n], runs[..n], documentTypes)
        + EntryFor(files[n], tempIds[n], runs[n], documentTypes)
  }

  /** The draft of the toast shown for a file of a type that is not allowed. */
  function RejectionDraft(f: SelectedFile): ToastDraft
  {
    ToastDraft(ErrorToast, "Invalid file type", Some(f.name + " is not a supported file type"), None)
  }

  /** The toast one file raises: a rejection when its type is not allowed, none otherwise. */
  function ToastFor(f: SelectedFile, toastId: string, documentTypes: seq<string>): seq<Toast>
  {
    var d := RejectionDraft(f);
    if Files.IsAllowedType(f.mimeType, documentTypes) then [] else [Toast(toastId, d.kind, d.title, d.message, d.duration)]
  }

  /** The toasts a selection adds, in selection order: one per rejected file. */
  function RejectionToasts(files: seq<SelectedFile>, toastIds: seq<string>, documentTypes: seq<string>): seq<Toast>
    requires |toastIds| == |files|
  {
    if files == [] then []
    else
      var n := |files| - 1;
      RejectionToasts(files[..n], toastIds[..n], documentTypes) + ToastFor(files[n], toastIds[n], documentTypes)
  }

  /** Every file gives exactly one entry or one toast, never both. */
  lemma {:induction false} EntriesAndToastsPartition(files: seq<SelectedFile>, tempIds: seq<string>, toastIds: seq<string>,
                                                      runs: seq<UploadRun>, documentTypes: seq<string>)
    requires |tempIds| == |files| && |runs| == |files| && |toastIds| == |files|
    ensures |SelectionEntries(files, tempIds, runs, documentTypes)| + |RejectionToasts(files, toastIds, documentTypes)| == |files|
  {
    if files != [] {
      var n := |files| - 1;
      EntriesAndToastsPartition(files[..n], tempIds[..n], toastIds[..n], runs[..n], documentTypes);
    }
  }

  /** No entry of a selection carries an identifier that is neither one of its temporary identifiers nor a server's. */
  lemma {:induction false} EntriesAvoid(files: seq<SelectedFile>, tempIds: seq<string>, runs: seq<UploadRun>,
                                        documentTypes: seq<string>, x: string)
    requires |tempIds| == |files| && |runs| == |files|
    requires forall k :: 0 <= k < |tempIds| ==> tempIds[k] != x
    requires forall k :: 0 <= k < |runs| && runs[k].response.Ok? ==> runs[k].response.value.id != x
    ensures x !in FileIds(SelectionEntries(files, tempIds, runs, documentTypes))
  {
    if files != [] {
      var n := |files| - 1;
      EntriesAvoid(files[..n], tempIds[..n], runs[..n], documentTypes, x);
      var prefix := SelectionEntries(files[..n], tempIds[..n], runs[..n], documentTypes);
      var tail := EntryFor(files[n], tempIds[n], runs[n], documentTypes);
      FinalEntryOutcome(files[n], tempIds[n], runs[n], documentTypes);
      FileIdsAppend(prefix, tail);
    }
  }

  lemma FileIdsAppend(a: seq<UploadedFile>, b: seq<UploadedFile>)
    ensures FileIds(a + b) == FileIds(a) + FileIds(b)
  {
    forall x | x in FileIds(a + b) ensures x in FileIds(a) + FileIds(b) {
      var f :| f in a + b && f.id == x;
      if f in a { assert x in FileIds(a); } else { assert x in FileIds(b); }
    }
    forall x | x in FileIds(a) + FileIds(b) ensures x in FileIds(a + b) {
      if x in FileIds(a) {
        var f :| f in a && f.id == x;
        assert f in a + b;
      } else {
        var f :| f in b && f.id == x;
        assert f in a + b;
      }
    }
  }

  /** The temporary identifiers are distinct, and new to the pending list and to the server's answers. */
  predicate FreshTempIds(tempIds: seq<string>, pending: seq<UploadedFile>, runs: seq<UploadRun>)
  {
    && (forall i, j :: 0 <= i < j < |tempIds| ==> tempIds[i] != tempIds[j])
    && (forall i :: 0 <= i < |tempIds| ==> tempIds[i] !in FileIds(pending))
    && (forall i, j :: 0 <= i < |tempIds| && 0 <= j < |runs| && runs[j].response.Ok? ==>
          tempIds[i] != runs[j].response.value.id)
  }

  /** One step of a selection: the entries of the first `i + 1` files extend those of the first `i`. */
  lemma SelectionStep(files: seq<SelectedFile>, tempIds: seq<string>, toastIds: seq<string>, runs: seq<UploadRun>,
                      documentTypes: seq<string>, i: nat)
    requires |tempIds| == |files| && |toastIds| == |files| && |runs| == |files| && i < |files|
    ensures SelectionEntries(files[..i + 1], tempIds[..i + 1], runs[..i + 1], documentTypes)
            == SelectionEntries(files[..i], tempIds[..i], runs[..i], documentTypes)
               + EntryFor(files[i], tempIds[i], runs[i], documentTypes)
    ensures RejectionToasts(files[..i + 1], toastIds[..i + 1], documentTypes)
            == RejectionToasts(files[..i], toastIds[..i], documentTypes) + ToastFor(files[i], toastIds[i], documentTypes)
  {
    assert files[..i + 1][..i] == files[..i] && tempIds[..i + 1][..i] == tempIds[..i];
    assert runs[..i + 1][..i] == runs[..i] && toastIds[..i + 1][..i] == toastIds[..i];
  }

  /**
   * The upload of one accepted file: added as uploading under `tempId`, then
   * moved by each progress report, then settled.
   */
  method UploadOne(store: ChatStore.Store, f: SelectedFile, tempId: string, run: UploadRun, documentTypes: seq<string>)
    requires tempId !in FileIds(store.pendingFiles)
    modifies store`pendingFiles
    ensures store.pendingFiles == old(store.pendingFiles) + [FinalEntry(f, tempId, run, documentTypes)]
  {
    var base := store.pendingFiles;
    store.AddPendingFile(PendingEntry(f, tempId));
    var reported := ReportedProgress(f, run, documentTypes);
    var j := 0;
    while j < |reported|
      invariant 0 <= j <= |reported|
      invariant store.pendingFiles == base + [WithProgress(PendingEntry(f, tempId), reported[..j])]
    {
      assert reported[..j + 1][..j] == reported[..j];
      ChatStore.UpdateLast(base, WithProgress(PendingEntry(f, tempId), reported[..j]), ProgressUpdate(reported[j]));
      store.UpdatePendingFile(tempId, ProgressUpdate(reported[j]));
      j := j + 1;
    }
    assert reported[..j] == reported;
    var result := Files.UploadFile(f.size, f.mimeType, documentTypes, run.response);
    ChatStore.UpdateLast(base, WithProgress(PendingEntry(f, tempId), reported), SettleUpdate(result));
    store.UpdatePendingFile(tempId, SettleUpdate(result));
  }

  /** One file of a selection: a file of a type that is not allowed only raises a toast; any other is uploaded. */
  method SelectOne(store: ChatStore.Store, ui: UiStore.UiState, f: SelectedFile, tempId: string, toastId: string,
                   run: UploadRun, documentTypes: seq<string>)
    requires tempId !in FileIds(store.pendingFiles)
    modifies store`pendingFiles, ui`toasts
    ensures store.pendingFiles == old(store.pendingFiles) + EntryFor(f, tempId, run, documentTypes)
    ensures ui.toasts == old(ui.toasts) + ToastFor(f, toastId, documentTypes)
  {
    if !Files.IsAllowedType(f.mimeType, documentTypes) {
      var _ := ui.AddToast(RejectionDraft(f), toastId);
    } else {
      UploadOne(store, f, tempId, run, documentTypes);
    }
  }

  /**
   * `handleFileSelect`: the files are taken one after another in selection
   * order, each upload settling before the next file starts.
   */
  method HandleFileSelect(store: ChatStore.Store, ui: UiStore.UiState, files: seq<SelectedFile>,
                          tempIds: seq<string>, toastIds: seq<string>, runs: seq<UploadRun>,
                          documentTypes: seq<string>)
    requires |tempIds| == |files| && |toastIds| == |files| && |runs| == |files|
    requires FreshTempIds(tempIds, store.pendingFiles, runs)
    modifies store`pendingFiles, ui`toasts
    ensures store.pendingFiles == old(store.pendingFiles) + SelectionEntries(files, tempIds, runs, documentTypes)
    ensures ui.toasts == old(ui.toasts) + RejectionToasts(files, toastIds, documentTypes)
  {
    var i := 0;
    while i < |files|
      invariant 0 <= i <= |files|
      invariant store.pendingFiles == old(store.pendingFiles) + SelectionEntries(files[..i], tempIds[..i], runs[..i], documentTypes)
      invariant ui.toasts == old(ui.toasts) + RejectionToasts(files[..i], toastIds[..i], documentTypes)
    {
      SelectionStep(files, tempIds, toastIds, runs, documentTypes, i);
      FreshAtStep(files, tempIds, runs, documentTypes, old(store.pendingFiles), i);
      SelectOne(store, ui, files[i], tempIds[i], toastIds[i], runs[i], documentTypes);
      Seqs.AppendAssoc(old(store.pendingFiles), SelectionEntries(files[..i], tempIds[..i], runs[..i], documentTypes),
                       EntryFor(files[i], tempIds[i], runs[i], documentTypes));
      Seqs.AppendAssoc(old(ui.toasts), RejectionToasts(files[..i], toastIds[..i], documentTypes),
                       ToastFor(files[i], toastIds[i], documentTypes));
      i := i + 1;
    }
    assert files[..i] == files && tempIds[..i] == tempIds && runs[..i] == runs && toastIds[..i] == toastIds;
  }

  /** The i-th temporary identifier is carried by no entry present when the i-th file starts. */
  lemma FreshAtStep(files: seq<SelectedFile>, tempIds: seq<string>, runs: seq<UploadRun>, documentTypes: seq<string>,
                    pending: seq<UploadedFile>, i: nat)
    requires |tempIds| == |files| && |runs| == |files| && i < |files|
    requires FreshTempIds(tempIds, pending, runs)
    ensures tempIds[i] !in FileIds(pending + SelectionEntries(files[..i], tempIds[..i], runs[..i], documentTypes))
  {
    EntriesAvoid(files[..i], tempIds[..i], runs[..i], documentTypes, tempIds[i]);
    FileIdsAppend(pending, SelectionEntries(files[..i], tempIds[..i], runs[..i], documentTypes));
  }

  /** The icon a file preview shows. */
  datatype PreviewIcon = Spinner | ImageIcon | FilmIcon | PaperclipIcon

  /** A spinner while uploading; otherwise by MIME prefix: image, video, anything else a paperclip. */
  function IconFor(file: UploadedFile): PreviewIcon
  {
    if file.status == Uploading then Spinner
    else if StartsWith(file.contentType, "image/") then ImageIcon
    else if StartsWith(file.contentType, "video/") then FilmIcon
    else PaperclipIcon
  }

  /**
   * Outside uploads the preview icon agrees with the part type the file will
   * be sent as, except that audio, like any other file, shows a paperclip.
   */
  lemma IconMatchesPart(file: UploadedFile)
    requires file.status != Uploading
    ensures IconFor(file) == ImageIcon <==> ChatStore.MediaKind(file.contentType) == Image
    ensures IconFor(file) == FilmIcon <==> ChatStore.MediaKind(file.contentType) == Video
    ensures IconFor(file) == PaperclipIcon <==> ChatStore.MediaKind(file.contentType) in {Audio, File}
  {
  }
}
