/** The create page of src/pages/BoardCreatePage.tsx. */
module BoardCreatePage {
  import opened Common
  import opened Navigation
  import opened BoardForms

  class BoardCreatePage {
    var title: string
    var category: string
    var content: string
    var file: Option<UploadFile>
    var error: string

    constructor ()
      ensures title == "" && category == "" && content == "" && file == None && error == ""
    {
      title, category, content := "", "", "";
      file := None;
      error := "";
    }

    /** `handleSubmit`: clear the error, check the required fields, then fire
        the create mutation with the untrimmed fields. It is also the form's
        `onSubmit` and never calls `preventDefault`. */
    method HandleSubmit() returns (preventedDefault: bool, payload: Option<BoardPayload>)
      modifies this
      ensures !preventedDefault
      ensures title == old(title) && category == old(category) && content == old(content) && file == old(file)
      ensures payload.Some? <==> RequiredFilled(title, category, content)
      ensures payload.None? ==> error == RequiredFieldsMessage
      ensures payload.Some? ==> error == "" && payload.value == BoardPayload(title, content, category, file)
    {
      preventedDefault := false;
      error := "";
      if !RequiredFilled(title, category, content) {
        error := RequiredFieldsMessage;
        payload := None;
        return;
      }
      payload := Some(BoardPayload(title, content, category, file));
    }

    /** `handleSubmit` as the edit page writes it: `preventDefault` first, then
        the same checks and the same mutation. */
    method HandleSubmitIntended() returns (preventedDefault: bool, payload: Option<BoardPayload>)
      modifies this
      ensures preventedDefault
      ensures title == old(title) && category == old(category) && content == old(content) && file == old(file)
      ensures payload.Some? <==> RequiredFilled(title, category, content)
      ensures payload.None? ==> error == RequiredFieldsMessage
      ensures payload.Some? ==> error == "" && payload.value == BoardPayload(title, content, category, file)
    {
      var ignored;
      ignored, payload := HandleSubmit();
      preventedDefault := true;
    }

    /** Enter in the title, the form's only text input, submits the form. The
        browser first checks the `required` title and content; then
        `handleSubmit` runs and, since it does not call `preventDefault`, the
        page is reloaded whatever the handler decided. */
    method SubmitWithEnter() returns (payload: Option<BoardPayload>, reload: Option<Effect>)
      modifies this
      ensures title == old(title) && category == old(category) && content == old(content) && file == old(file)
      ensures !RequiredAttributesMet(title, content) ==> payload == None && reload == None && error == old(error)
      ensures RequiredAttributesMet(title, content) ==>
        && reload == Some(DocumentReload)
        && (payload.Some? <==> RequiredFilled(title, category, content))
        && (payload.None? ==> error == RequiredFieldsMessage)
    {
      if !RequiredAttributesMet(title, content) {
        return None, None;
      }
      var prevented;
      prevented, payload := HandleSubmit();
      reload := AfterSubmitEvent(prevented);
    }

    /** Enter in the title with the intended handler: the mutation is the same
        and the page stays. */
    method SubmitWithEnterIntended() returns (payload: Option<BoardPayload>, reload: Option<Effect>)
      modifies this
      ensures title == old(title) && category == old(category) && content == old(content) && file == old(file)
      ensures reload == None
      ensures payload.Some? <==> RequiredFilled(title, category, content)
      ensures RequiredAttributesMet(title, content) && payload.None? ==> error == RequiredFieldsMessage
    {
      RequiredChecksNest(title, category, content);
      if !RequiredAttributesMet(title, content) {
        return None, None;
      }
      var prevented;
      prevented, payload := HandleSubmitIntended();
      reload := AfterSubmitEvent(prevented);
    }

    /** `onSuccess`: to the list. */
    method OnCreateSuccess() returns (nav: Effect)
      ensures nav == Navigate(BoardsPath, false)
    {
      nav := Navigate(BoardsPath, false);
    }

    /** `onError`. */
    method OnCreateError()
      modifies this
      ensures error == CreateFailedMessage
      ensures title == old(title) && category == old(category) && content == old(content) && file == old(file)
    {
      error := CreateFailedMessage;
    }
  }
}
