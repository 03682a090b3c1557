/** What the three post forms (src/pages/BoardFormPage.tsx,
    src/pages/BoardCreatePage.tsx, src/pages/BoardEditPage.tsx) share: the
    required-field rule, the payload, the messages and the board shapes
    borrowed from src/features/board/types/index.ts. */
module BoardForms {
  import opened Common
  import opened Navigation

  /** A browser `File` chosen in the upload control, known by identity only. */
  datatype UploadFile = UploadFile(handle: nat)

  /** `BoardDetail` as the detail endpoint returns it. */
  datatype BoardDetail = BoardDetail(
    id: int, title: string, content: string, boardCategory: string,
    imageUrl: Option<string>, createdAt: string)

  /** `CreateBoardRequest` / `UpdateBoardRequest`: `file` only when one is selected. */
  datatype BoardPayload = BoardPayload(title: string, content: string, category: string, file: Option<UploadFile>)

  const RequiredFieldsMessage := "Please fill in all required fields."
  const CreateFailedMessage := "Failed to create post."
  const UpdateFailedMessage := "Failed to update post."

  /** `!title.trim() || !category || !content.trim()` negated. */
  predicate RequiredFilled(title: string, category: string, content: string) {
    Trim(title) != "" && category != "" && Trim(content) != ""
  }

  /** The fields are accepted exactly when the title and the content each
      have a non-whitespace character and a category is chosen. */
  lemma RequiredFilledSpec(title: string, category: string, content: string)
    ensures RequiredFilled(title, category, content) <==> !IsBlank(title) && category != "" && !IsBlank(content)
  {
    TrimEmptyIffBlank(title);
    TrimEmptyIffBlank(content);
  }

  /** Constraint validation of the `required` title and content inputs: an
      empty value stops the browser before any submit event is fired. */
  predicate RequiredAttributesMet(title: string, content: string) {
    title != "" && content != ""
  }

  /** What the browser does once the form's submit handler has returned: a
      reload unless the handler called `preventDefault`. */
  function AfterSubmitEvent(preventedDefault: bool): (reload: Option<Effect>)
    ensures reload.None? <==> preventedDefault
    ensures reload.Some? ==> reload.value == DocumentReload
  {
    if preventedDefault then None else Some(DocumentReload)
  }

  /** The browser's `required` check is weaker than the handler's: a title or
      content of spaces only reaches the handler, which rejects it. */
  lemma RequiredChecksNest(title: string, category: string, content: string)
    ensures RequiredFilled(title, category, content) ==> RequiredAttributesMet(title, content)
    ensures RequiredAttributesMet(" ", " ") && !RequiredFilled(" ", category, " ")
  {
    if RequiredFilled(title, category, content) {
      TrimEmptyIffBlank(title);
      TrimEmptyIffBlank(content);
    }
    assert IsBlank(" ");
    TrimEmptyIffBlank(" ");
  }

  /** `${x}` of an optional string: `undefined` is rendered as the text `undefined`. */
  function Interpolate(s: Option<string>): string {
    if s.Some? then s.value else "undefined"
  }

  /** `/boards/${id}`. */
  function BoardPath(id: string): string {
    "/boards/" + id
  }
}
