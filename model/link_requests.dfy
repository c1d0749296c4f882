/** frontend/src/components/supplier/LinkRequests.jsx: the supplier's link
    request tabs and the approve / reject / message dialog. The page's state
    is the class `LinkRequestsPage`; each handler's effect on it is a function
    of the old state, so that sequences of handlers can be reasoned about. */
module LinkRequests {
  import opened Wrappers
  import opened Text

  /** The fields of a request card the dialog reads. */
  datatype LinkRequest = LinkRequest(id: int, consumerName: string, status: string)

  /** The page's three lists of requests. */
  datatype RequestLists = RequestLists(pending: seq<LinkRequest>, approved: seq<LinkRequest>, rejected: seq<LinkRequest>)

  /** `getRequestData()`: the list for tabs 0, 1 and 2, empty for any other tab. */
  function RequestData(lists: RequestLists, tab: int): (r: seq<LinkRequest>)
    ensures tab == 0 ==> r == lists.pending
    ensures tab == 1 ==> r == lists.approved
    ensures tab == 2 ==> r == lists.rejected
    ensures !(0 <= tab <= 2) ==> r == []
  {
    match tab
    case 0 => lists.pending
    case 1 => lists.approved
    case 2 => lists.rejected
    case _ => []
  }

  const APPROVE := "approve"
  const REJECT := "reject"
  const MESSAGE := "message"

  /** The dialog-related state: whether the row menu is anchored, the
      selected request, whether the dialog is open, its kind and its two
      text fields. */
  datatype DialogState = DialogState(menuOpen: bool, selected: Option<LinkRequest>, openDialog: bool,
                                     dialogType: string, rejectionReason: string, message: string)

  const INITIAL := DialogState(false, None, false, "", "", "")

  /** `handleMenuClick(event, request)`. */
  function MenuClick(s: DialogState, request: LinkRequest): (t: DialogState)
    ensures t.menuOpen && t.selected == Some(request)
    ensures t.openDialog == s.openDialog && t.dialogType == s.dialogType
    ensures t.rejectionReason == s.rejectionReason && t.message == s.message
  {
    s.(menuOpen := true, selected := Some(request))
  }

  /** `handleMenuClose`. */
  function MenuClose(s: DialogState): (t: DialogState)
    ensures !t.menuOpen && t.selected == None
    ensures t.openDialog == s.openDialog && t.dialogType == s.dialogType
    ensures t.rejectionReason == s.rejectionReason && t.message == s.message
  {
    s.(menuOpen := false, selected := None)
  }

  /** `handleApprove` / `handleReject` / `handleMessage`: open the dialog of
      that kind. */
  function OpenDialog(s: DialogState, kind: string): (t: DialogState)
    ensures t.openDialog && t.dialogType == kind
    ensures t.menuOpen == s.menuOpen && t.selected == s.selected
    ensures t.rejectionReason == s.rejectionReason && t.message == s.message
  {
    s.(dialogType := kind, openDialog := true)
  }

  /** A card's Approve / Reject / Message button: select the card's request,
      then open the dialog. */
  function CardAction(s: DialogState, request: LinkRequest, kind: string): (t: DialogState)
    ensures t.openDialog && t.dialogType == kind && t.selected == Some(request)
  {
    OpenDialog(s.(selected := Some(request)), kind)
  }

  /** A context-menu item, as written: open the dialog, then close the menu
      (which also forgets the selected request). */
  function MenuAction(s: DialogState, kind: string): (t: DialogState)
    ensures t.openDialog && t.dialogType == kind && !t.menuOpen
    ensures t.selected == None
  {
    MenuClose(OpenDialog(s, kind))
  }

  /** A context-menu item as evidently intended: open the dialog and close
      the menu, keeping the request the menu was opened for. */
  function MenuActionKeepingSelection(s: DialogState, kind: string): (t: DialogState)
    ensures t.openDialog && t.dialogType == kind && !t.menuOpen
    ensures t.selected == s.selected
  {
    OpenDialog(s, kind).(menuOpen := false)
  }

  /** The Cancel button: `setOpenDialog(false)` only. */
  function CancelDialog(s: DialogState): (t: DialogState)
    ensures !t.openDialog && t == s.(openDialog := false)
  {
    s.(openDialog := false)
  }

  /** The confirm button is disabled exactly for a rejection without a reason. */
  predicate ConfirmEnabled(s: DialogState) {
    !(s.dialogType == REJECT && Trim(s.rejectionReason) == [])
  }

  /** Approving and messaging can always be confirmed; a rejection exactly
      when its reason has a character that is not whitespace. */
  lemma ConfirmEnabledRule(s: DialogState)
    ensures s.dialogType != REJECT ==> ConfirmEnabled(s)
    ensures s.dialogType == REJECT ==> (ConfirmEnabled(s) <==> !AllWhitespace(s.rejectionReason))
  {
    TrimEmpty(s.rejectionReason);
  }

  const NULL_ID_ERROR := "TypeError: Cannot read properties of null (reading 'id')"

  /** `handleConfirmAction`: reads `selectedRequest.id` (for its log line)
      before anything else, so with no selected request it throws and changes
      nothing; otherwise it closes the dialog, clears both text fields and
      closes the menu. The result carries the id it logged. */
  function Confirm(s: DialogState): (r: Result<(DialogState, int), string>)
    ensures s.selected.None? <==> r.Err?
    ensures r.Ok? ==> r.value.1 == s.selected.value.id
    ensures r.Ok? ==> r.value.0 == DialogState(false, None, false, s.dialogType, "", "")
  {
    match s.selected
    case None => Err(NULL_ID_ERROR)
    case Some(request) =>
      Ok((MenuClose(s.(openDialog := false, rejectionReason := "", message := "")), request.id))
  }

  /** Confirming a dialog opened from a card always succeeds, and logs that card's request. */
  lemma CardConfirmSucceeds(s: DialogState, request: LinkRequest, kind: string)
    ensures Confirm(CardAction(s, request, kind)) ==
              Ok((DialogState(false, None, false, kind, "", ""), request.id))
  {
  }

  /** As written, confirming a dialog opened from the context menu throws,
      whichever request the menu was opened for. */
  lemma MenuConfirmThrows(s: DialogState, request: LinkRequest, kind: string)
    ensures Confirm(MenuAction(MenuClick(s, request), kind)) == Err(NULL_ID_ERROR)
  {
  }

  /** With the selection kept, confirming a dialog opened from the context
      menu succeeds on the request the menu was opened for. */
  lemma MenuConfirmSucceedsKeepingSelection(s: DialogState, request: LinkRequest, kind: string)
    ensures Confirm(MenuActionKeepingSelection(MenuClick(s, request), kind)) ==
              Ok((DialogState(false, None, false, kind, "", ""), request.id))
  {
  }

  class LinkRequestsPage {
    var tabValue: int
    var menuOpen: bool
    var selectedRequest: Option<LinkRequest>
    var openDialog: bool
    var dialogType: string
    var rejectionReason: string
    var message: string

    function State(): DialogState
      reads this
    {
      DialogState(menuOpen, selectedRequest, openDialog, dialogType, rejectionReason, message)
    }

    method SetState(t: DialogState)
      modifies this
      ensures State() == t && tabValue == old(tabValue)
    {
      menuOpen, selectedRequest, openDialog := t.menuOpen, t.selected, t.openDialog;
      dialogType, rejectionReason, message := t.dialogType, t.rejectionReason, t.message;
    }

    constructor ()
      ensures tabValue == 0 && State() == INITIAL
    {
      tabValue := 0;
      menuOpen, selectedRequest, openDialog := false, None, false;
      dialogType, rejectionReason, message := "", "", "";
    }

    /** `handleTabChange`. */
    method HandleTabChange(newValue: int)
      modifies this
      ensures tabValue == newValue && State() == old(State())
    {
      tabValue := newValue;
    }

    /** `handleMenuClick(event, request)`. */
    method HandleMenuClick(request: LinkRequest)
      modifies this
      ensures State() == MenuClick(old(State()), request) && tabValue == old(tabValue)
    {
      SetState(MenuClick(State(), request));
    }

    /** `handleMenuClose`. */
    method HandleMenuClose()
      modifies this
      ensures State() == MenuClose(old(State())) && tabValue == old(tabValue)
    {
      SetState(MenuClose(State()));
    }

    /** `handleApprove`, `handleReject` or `handleMessage`, by `kind`. */
    method HandleOpen(kind: string)
      requires kind == APPROVE || kind == REJECT || kind == MESSAGE
      modifies this
      ensures State() == OpenDialog(old(State()), kind) && tabValue == old(tabValue)
    {
      SetState(OpenDialog(State(), kind));
    }

    /** A card button's click handler. */
    method HandleCardAction(request: LinkRequest, kind: string)
      requires kind == APPROVE || kind == REJECT || kind == MESSAGE
      modifies this
      ensures State() == CardAction(old(State()), request, kind) && tabValue == old(tabValue)
    {
      SetState(CardAction(State(), request, kind));
    }

    /** A context-menu item's click handler, keeping the selected request
        (`MenuAction` is the code as written, which drops it). */
    method HandleMenuAction(kind: string)
      requires kind == APPROVE || kind == REJECT || kind == MESSAGE
      modifies this
      ensures State() == MenuActionKeepingSelection(old(State()), kind) && tabValue == old(tabValue)
    {
      HandleOpen(kind);
      menuOpen := false;
    }

    /** The dialog's Cancel button. */
    method HandleCancel()
      modifies this
      ensures State() == CancelDialog(old(State())) && tabValue == old(tabValue)
    {
      openDialog := false;
    }

    /** `handleConfirmAction`: on success returns the logged id; on failure the
        thrown error, with the state unchanged. */
    method HandleConfirmAction() returns (r: Result<int, string>)
      modifies this
      ensures Confirm(old(State())).Err? ==> r == Err(Confirm(old(State())).error) && State() == old(State())
      ensures Confirm(old(State())).Ok? ==>
                r == Ok(Confirm(old(State())).value.1) && State() == Confirm(old(State())).value.0
      ensures tabValue == old(tabValue)
    {
      match selectedRequest {
        case None =>
          return Err(NULL_ID_ERROR);
        case Some(request) =>
          openDialog := false;
          rejectionReason := "";
          message := "";
          HandleMenuClose();
          return Ok(request.id);
      }
    }
  }
}
