/** The labelled input of src/shared/components/Input.tsx. */
module Input {
  import opened Common
  import opened FieldIds

  datatype InputView = InputView(labelFor: string, inputId: string, hasError: bool, errorText: Option<string>)

  /** The label points at the input, and the error styling and the error
      text both appear exactly for a non-empty error. */
  function Render(labelText: string, error: Option<string>, id: Option<string>): (v: InputView)
    ensures v.labelFor == v.inputId == FieldId(id, labelText)
    ensures v.hasError <==> Truthy(error)
    ensures v.errorText.Some? <==> v.hasError
    ensures v.errorText.Some? ==> v.errorText == error
  {
    var inputId := FieldId(id, labelText);
    InputView(inputId, inputId, Truthy(error), if Truthy(error) then error else None)
  }
}
