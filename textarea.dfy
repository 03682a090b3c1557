/** The labelled text area of src/shared/components/Textarea.tsx. */
module Textarea {
  import opened Common
  import opened FieldIds

  datatype TextareaView = TextareaView(labelFor: string, textareaId: string)

  /** The label points at the text area, whose id follows the shared rule. */
  function Render(labelText: string, id: Option<string>): (v: TextareaView)
    ensures v.labelFor == v.textareaId == FieldId(id, labelText)
  {
    var textareaId := FieldId(id, labelText);
    TextareaView(textareaId, textareaId)
  }
}
