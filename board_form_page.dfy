/** The combined create/edit page of src/pages/BoardFormPage.tsx. */
module BoardFormPage {
  import opened Common
  import opened Navigation
  import opened BoardForms
  import BoardKeys

  /** The mutation `handleSubmit` fires. */
  datatype Mutation =
    | CreateBoard(payload: BoardPayload)
    | UpdateBoard(id: BoardKeys.JsNumber, payload: BoardPayload)

  /** The submit button's caption. */
  function ButtonCaption(isEdit: bool, pending: bool): string {
    if pending then (if isEdit then "Saving..." else "Publishing...")
    else (if isEdit then "Save Changes" else "Publish")
  }

  /** Each mode and pending state has its own caption, so the caption tells
      both apart. */
  lemma ButtonCaptionDistinct(isEdit: bool, pending: bool, isEdit': bool, pending': bool)
    ensures ButtonCaption(isEdit, pending) == ButtonCaption(isEdit', pending') <==> isEdit == isEdit' && pending == pending'
  {
    if ButtonCaption(isEdit, pending) == ButtonCaption(isEdit', pending') {
      var c := ButtonCaption(isEdit, pending);
      assert c[0] == ButtonCaption(isEdit', pending')[0];
      assert |c| == |ButtonCaption(isEdit', pending')|;
    }
  }

  class BoardFormPage {
    /** The `:id` route parameter. */
    const routeId: Option<string>
    var title: string
    var category: string
    var content: string
    var file: Option<UploadFile>
    var error: string
    var syncedBoardId: Option<int>

    /** `isEdit = !!id`. */
    predicate IsEdit() {
      Truthy(routeId)
    }

    constructor (routeId: Option<string>)
      ensures this.routeId == routeId
      ensures title == "" && category == "" && content == "" && file == None && error == ""
      ensures syncedBoardId == None
    {
      this.routeId := routeId;
      title, category, content := "", "", "";
      file := None;
      error := "";
      syncedBoardId := None;
    }

    /** The render-time guard: copy a loaded board into the form once per board id. */
    method SyncFromBoard(board: Option<BoardDetail>)
      modifies this
      ensures file == old(file) && error == old(error)
      ensures if IsEdit() && board.Some? && old(syncedBoardId) != Some(board.value.id) then
          && syncedBoardId == Some(board.value.id)
          && title == board.value.title && category == board.value.boardCategory && content == board.value.content
        else
          && syncedBoardId == old(syncedBoardId)
          && title == old(title) && category == old(category) && content == old(content)
    {
      if IsEdit() && board.Some? && syncedBoardId != Some(board.value.id) {
        syncedBoardId := Some(board.value.id);
        title, category, content := board.value.title, board.value.boardCategory, board.value.content;
      }
    }

    /** Typing in the title field. */
    method EditTitle(value: string)
      modifies this
      ensures title == value
      ensures category == old(category) && content == old(content) && file == old(file)
      ensures error == old(error) && syncedBoardId == old(syncedBoardId)
    {
      title := value;
    }

    /** `handleSubmit`: clear the error, check the required fields, then fire
        the update (edit mode) or create mutation with the untrimmed fields. */
    method HandleSubmit() returns (preventedDefault: bool, m: Option<Mutation>)
      modifies this
      ensures !preventedDefault
      ensures title == old(title) && category == old(category) && content == old(content)
      ensures file == old(file) && syncedBoardId == old(syncedBoardId)
      ensures m.Some? <==> RequiredFilled(title, category, content)
      ensures m.None? ==> error == RequiredFieldsMessage
      ensures m.Some? ==>
        && error == ""
        && m.value.payload == BoardPayload(title, content, category, file)
        && (m.value.UpdateBoard? <==> IsEdit())
        && (m.value.UpdateBoard? ==> m.value.id == BoardKeys.ToNumber(routeId))
    {
      preventedDefault := false;
      error := "";
      if !RequiredFilled(title, category, content) {
        error := RequiredFieldsMessage;
        m := None;
        return;
      }
      var payload := BoardPayload(title, content, category, file);
      if IsEdit() {
        m := Some(UpdateBoard(BoardKeys.ToNumber(routeId), payload));
      } else {
        m := Some(CreateBoard(payload));
      }
    }

    /** `handleSubmit` as the edit page writes it: `preventDefault` first, then
        the same checks and the same mutation. */
    method HandleSubmitIntended() returns (preventedDefault: bool, m: Option<Mutation>)
      modifies this
      ensures preventedDefault
      ensures title == old(title) && category == old(category) && content == old(content)
      ensures file == old(file) && syncedBoardId == old(syncedBoardId)
      ensures m.Some? <==> RequiredFilled(title, category, content)
      ensures m.None? ==> error == RequiredFieldsMessage
      ensures m.Some? ==>
        && error == ""
        && m.value.payload == BoardPayload(title, content, category, file)
        && (m.value.UpdateBoard? <==> IsEdit())
        && (m.value.UpdateBoard? ==> m.value.id == BoardKeys.ToNumber(routeId))
    {
      var ignored;
      ignored, m := HandleSubmit();
      preventedDefault := true;
    }

    /** Enter in the title, the form's only text input, submits the form. The
        browser first checks the `required` title and content; then
        `handleSubmit` runs and, since it does not call `preventDefault`, the
        page is reloaded whatever the handler decided. */
    method SubmitWithEnter() returns (m: Option<Mutation>, reload: Option<Effect>)
      modifies this
      ensures title == old(title) && category == old(category) && content == old(content)
      ensures file == old(file) && syncedBoardId == old(syncedBoardId)
      ensures !RequiredAttributesMet(title, content) ==> m == None && reload == None && error == old(error)
      ensures RequiredAttributesMet(title, content) ==>
        && reload == Some(DocumentReload)
        && (m.Some? <==> RequiredFilled(title, category, content))
        && (m.None? ==> error == RequiredFieldsMessage)
    {
      if !RequiredAttributesMet(title, content) {
        return None, None;
      }
      var prevented;
      prevented, m := HandleSubmit();
      reload := AfterSubmitEvent(prevented);
    }

    /** Enter in the title with the intended handler: the mutation is the same
        and the page stays. */
    method SubmitWithEnterIntended() returns (m: Option<Mutation>, reload: Option<Effect>)
      modifies this
      ensures title == old(title) && category == old(category) && content == old(content)
      ensures file == old(file) && syncedBoardId == old(syncedBoardId)
      ensures reload == None
      ensures m.Some? <==> RequiredFilled(title, category, content)
      ensures RequiredAttributesMet(title, content) && m.None? ==> error == RequiredFieldsMessage
    {
      RequiredChecksNest(title, category, content);
      if !RequiredAttributesMet(title, content) {
        return None, None;
      }
      var prevented;
      prevented, m := HandleSubmitIntended();
      reload := AfterSubmitEvent(prevented);
    }

    /** The mutation's `onSuccess`: back to the post in edit mode, to the list otherwise. */
    method OnMutationSuccess() returns (nav: Effect)
      ensures nav == if IsEdit() then Navigate(BoardPath(routeId.value), false) else Navigate(BoardsPath, false)
    {
      if IsEdit() {
        nav := Navigate(BoardPath(routeId.value), false);
      } else {
        nav := Navigate(BoardsPath, false);
      }
    }

    /** The mutation's `onError`: the message names the mode. */
    method OnMutationError()
      modifies this
      ensures error == if IsEdit() then UpdateFailedMessage else CreateFailedMessage
      ensures title == old(title) && category == old(category) && content == old(content)
      ensures file == old(file) && syncedBoardId == old(syncedBoardId)
    {
      error := if IsEdit() then UpdateFailedMessage else CreateFailedMessage;
    }
  }

  /** A board re-delivered with the same id (a refetch) does not overwrite what
      the user typed after the first copy. */
  method EditSurvivesRefetch(page: BoardFormPage, board: BoardDetail, typed: string)
    requires page.IsEdit()
    modifies page
    ensures page.title == typed
    ensures page.syncedBoardId == Some(board.id)
  {
    page.SyncFromBoard(Some(board));
    page.EditTitle(typed);
    page.SyncFromBoard(Some(board));
  }
}
