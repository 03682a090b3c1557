/** The edit page of src/pages/BoardEditPage.tsx. */
module BoardEditPage {
  import opened Common
  import opened Navigation
  import opened BoardForms
  import BoardKeys

  class BoardEditPage {
    /** The `:id` route parameter. */
    const routeId: Option<string>
    var title: string
    var category: string
    var content: string
    var file: Option<UploadFile>
    var error: string

    constructor (routeId: Option<string>)
      ensures this.routeId == routeId
      ensures title == "" && category == "" && content == "" && file == None && error == ""
    {
      this.routeId := routeId;
      title, category, content := "", "", "";
      file := None;
      error := "";
    }

    /** The effect on `[board]`: every new board object overwrites the three fields. */
    method OnBoardChanged(board: Option<BoardDetail>)
      modifies this
      ensures file == old(file) && error == old(error)
      ensures board.Some? ==> title == board.value.title && category == board.value.boardCategory && content == board.value.content
      ensures board.None? ==> title == old(title) && category == old(category) && content == old(content)
    {
      if board.Some? {
        title, category, content := board.value.title, board.value.boardCategory, board.value.content;
      }
    }

    /** `handleSubmit(e)`: prevent the browser's submit, clear the error, check
        the id and the required fields, then fire the update for `Number(id)`. */
    method HandleSubmit() returns (preventedDefault: bool, update: Option<(BoardKeys.JsNumber, BoardPayload)>)
      modifies this
      ensures preventedDefault
      ensures title == old(title) && category == old(category) && content == old(content) && file == old(file)
      ensures update.Some? <==> Truthy(routeId) && RequiredFilled(title, category, content)
      ensures update.None? ==> error == RequiredFieldsMessage
      ensures update.Some? ==>
        && error == ""
        && update.value == (BoardKeys.ToNumber(routeId), BoardPayload(title, content, category, file))
    {
      preventedDefault := true;
      error := "";
      if !Truthy(routeId) || !RequiredFilled(title, category, content) {
        error := RequiredFieldsMessage;
        return preventedDefault, None;
      }
      update := Some((BoardKeys.ToNumber(routeId), BoardPayload(title, content, category, file)));
    }

    /** `onSuccess`: to `/boards/${id}`. */
    method OnUpdateSuccess() returns (nav: Effect)
      ensures nav == Navigate(BoardPath(Interpolate(routeId)), false)
    {
      nav := Navigate(BoardPath(Interpolate(routeId)), false);
    }

    /** `onError`. */
    method OnUpdateError()
      modifies this
      ensures error == UpdateFailedMessage
      ensures title == old(title) && category == old(category) && content == old(content) && file == old(file)
    {
      error := UpdateFailedMessage;
    }
  }
}
