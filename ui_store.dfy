/**
 * The interface store: sidebar flags, the modal, the toast list and the
 * dark-mode flag. The timer that dismisses a toast is not modelled as a
 * timer: `AddToast` returns the delay, and the dismissal itself is a later
 * call of `RemoveToast` with the toast's identifier.
 */
module UiStore {
  import opened Wrappers
  import opened Types
  import Seqs

  const DefaultToastDuration: int := 5000

  /** `toast.duration || 5000`: an absent or zero duration takes the default. */
  function DismissDelay(duration: Option<int>): (ms: int)
    ensures duration.None? || duration.value == 0 ==> ms == DefaultToastDuration
    ensures duration.Some? && duration.value != 0 ==> ms == duration.value
    ensures ms != 0
  {
    if duration.Some? && duration.value != 0 then duration.value else DefaultToastDuration
  }

  /** The identifiers of a toast list. */
  function ToastIds(ts: seq<Toast>): set<string>
  {
    set t | t in ts :: t.id
  }

  /** The toast list without the toasts carrying `id`, in order. */
  function WithoutToast(ts: seq<Toast>, id: string): (r: seq<Toast>)
    ensures forall i :: 0 <= i < |r| ==> r[i].id != id && r[i] in ts
    ensures forall i :: 0 <= i < |ts| && ts[i].id != id ==> ts[i] in r
  {
    Seqs.Filter(ts, (t: Toast) => t.id != id)
  }

  /** Removing an identifier no toast carries is a no-op. */
  lemma RemoveUnknownToast(ts: seq<Toast>, id: string)
    requires id !in ToastIds(ts)
    ensures WithoutToast(ts, id) == ts
  {
    Seqs.FilterKeepsAll(ts, (t: Toast) => t.id != id);
  }

  /** Dismissing the toast just added, under a fresh identifier, gives back the earlier list. */
  lemma DismissAdded(ts: seq<Toast>, t: Toast)
    requires t.id !in ToastIds(ts)
    ensures WithoutToast(ts + [t], t.id) == ts
  {
    var keep := (x: Toast) => x.id != t.id;
    Seqs.FilterAppend(ts, [t], keep);
    Seqs.FilterKeepsAll(ts, keep);
    assert Seqs.Filter([t], keep) == [] by {
      assert [t][1..] == [];
    }
  }

  class UiState {
    var isSidebarOpen: bool
    var isSidebarCollapsed: bool
    var modal: ModalState
    var toasts: seq<Toast>
    var isDarkMode: bool

    /** Sidebar open and expanded, modal closed, no toasts, dark mode on. */
    constructor()
      ensures isSidebarOpen && !isSidebarCollapsed
      ensures modal == ModalState(false, None, None)
      ensures toasts == [] && isDarkMode
    {
      isSidebarOpen := true;
      isSidebarCollapsed := false;
      modal := ModalState(false, None, None);
      toasts := [];
      isDarkMode := true;
    }

    method ToggleSidebar()
      modifies this`isSidebarOpen
      ensures isSidebarOpen == !old(isSidebarOpen)
    {
      isSidebarOpen := !isSidebarOpen;
    }

    method SetSidebarOpen(isOpen: bool)
      modifies this`isSidebarOpen
      ensures isSidebarOpen == isOpen
    {
      isSidebarOpen := isOpen;
    }

    method ToggleSidebarCollapse()
      modifies this`isSidebarCollapsed
      ensures isSidebarCollapsed == !old(isSidebarCollapsed)
    {
      isSidebarCollapsed := !isSidebarCollapsed;
    }

    /** `openModal(type, data)`; the type may itself be null. */
    method OpenModal(kind: Option<ModalKind>, data: Option<string>)
      modifies this`modal
      ensures modal == ModalState(true, kind, data)
    {
      modal := ModalState(true, kind, data);
    }

    method CloseModal()
      modifies this`modal
      ensures modal == ModalState(false, None, None)
    {
      modal := ModalState(false, None, None);
    }

    /**
     * `addToast`: one toast appended under the identifier `id`, the earlier
     * ones kept in order; the result is the delay after which it is dismissed.
     */
    method AddToast(draft: ToastDraft, id: string) returns (dismissAfter: int)
      modifies this`toasts
      ensures toasts == old(toasts) + [Toast(id, draft.kind, draft.title, draft.message, draft.duration)]
      ensures dismissAfter == DismissDelay(draft.duration)
    {
      dismissAfter := DismissDelay(draft.duration);
      toasts := toasts + [Toast(id, draft.kind, draft.title, draft.message, draft.duration)];
    }

    /** `removeToast`, and the timed dismissal `addToast` schedules. */
    method RemoveToast(id: string)
      modifies this`toasts
      ensures toasts == WithoutToast(old(toasts), id)
    {
      toasts := WithoutToast(toasts, id);
    }

    method ToggleDarkMode()
      modifies this`isDarkMode
      ensures isDarkMode == !old(isDarkMode)
    {
      isDarkMode := !isDarkMode;
    }
  }

  /** Each toggle undoes itself: applied twice, the three flags are as before. */
  method TogglesTwice(ui: UiState)
    modifies ui`isSidebarOpen, ui`isSidebarCollapsed, ui`isDarkMode
    ensures ui.isSidebarOpen == old(ui.isSidebarOpen)
    ensures ui.isSidebarCollapsed == old(ui.isSidebarCollapsed)
    ensures ui.isDarkMode == old(ui.isDarkMode)
  {
    ui.ToggleSidebar();
    ui.ToggleSidebar();
    ui.ToggleSidebarCollapse();
    ui.ToggleSidebarCollapse();
    ui.ToggleDarkMode();
    ui.ToggleDarkMode();
  }

  /** A toast added under a fresh identifier and then dismissed leaves the list as it was. */
  method AddThenDismiss(ui: UiState, draft: ToastDraft, id: string) returns (dismissAfter: int)
    requires id !in ToastIds(ui.toasts)
    modifies ui`toasts
    ensures ui.toasts == old(ui.toasts)
    ensures dismissAfter == DismissDelay(draft.duration)
  {
    dismissAfter := ui.AddToast(draft, id);
    DismissAdded(old(ui.toasts), Toast(id, draft.kind, draft.title, draft.message, draft.duration));
    ui.RemoveToast(id);
  }
}
