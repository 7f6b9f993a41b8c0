/** The generic full-screen form (`FullScreenForm`): a map from input
    name to text that starts empty, is written one input at a time, is
    cleared when the form closes, and is forwarded by the submit handler
    without any check of its own (the browser's checks of the `required`
    and `type="email"` inputs run before the handler and are not part of
    this model). */
module FullScreenForm {
  import opened Forms

  type FormData = map<string, string>

  /** What an input shows: `formData[name] || ''`. */
  function FieldValue(m: FormData, name: string): string
  {
    if name in m then m[name] else ""
  }

  class FullScreen {
    var formData: FormData

    constructor ()
      ensures formData == map[]
      ensures forall name :: FieldValue(formData, name) == ""
    {
      formData := map[];
    }

    /** The effect on `isOpen`: a closed form is emptied. */
    method OpenChanged(isOpen: bool)
      modifies this
      ensures formData == if isOpen then old(formData) else map[]
      ensures !isOpen ==> forall name :: FieldValue(formData, name) == ""
    {
      if !isOpen {
        formData := map[];
      }
    }

    /** `handleChange`: the input named `name` now shows `value`; every
        other input shows what it showed before. */
    method HandleChange(name: string, value: string)
      modifies this
      ensures FieldValue(formData, name) == value
      ensures forall k :: k != name ==> FieldValue(formData, k) == FieldValue(old(formData), k)
      ensures formData.Keys == old(formData).Keys + {name}
    {
      formData := formData[name := value];
    }

    /** `handleSubmit`: the current map goes to `onSubmit`, whatever it
        holds. */
    method HandleSubmit() returns (outcome: Outcome<FormData>)
      ensures outcome == Submitted(formData)
    {
      outcome := Submitted(formData);
    }
  }
}
