/** The onboarding workflow form (`OnBoardingForm`): a flat map from field
    name to text, two required fields checked in order on submit, and a
    reset to the initial shape whenever the form is closed. */
module OnBoardingForm {
  import opened Forms

  type FormData = map<string, string>

  /** `!formData[key]`: a key that is absent reads as `undefined`, which is
      falsy like the empty string. */
  predicate Blank(m: FormData, key: string)
  {
    key !in m || m[key] == ""
  }

  /** The shape the form starts in and returns to when closed. */
  function InitialFormData(): (m: FormData)
    ensures m.Keys == {"clientId", "clientType"}
    ensures Blank(m, "clientId") && Blank(m, "clientType")
  {
    map["clientId" := "", "clientType" := ""]
  }

  class OnBoarding {
    var formData: FormData

    constructor ()
      ensures formData == InitialFormData()
    {
      formData := InitialFormData();
    }

    /** The effect on `isOpen`: a closed form is reset. */
    method OpenChanged(isOpen: bool)
      modifies this
      ensures formData == if isOpen then old(formData) else InitialFormData()
    {
      if !isOpen {
        formData := InitialFormData();
      }
    }

    /** `handleFieldChange`: the named field takes the value, every other
        field keeps its own. */
    method HandleFieldChange(name: string, value: string)
      modifies this
      ensures name in formData && formData[name] == value
      ensures formData.Keys == old(formData).Keys + {name}
      ensures forall k :: k in old(formData) && k != name ==> formData[k] == old(formData)[k]
    {
      formData := formData[name := value];
    }

    /** `handleSubmit`: a blank client is reported first, then a blank
        client type; otherwise the whole map is handed to `onSubmit`. */
    method HandleSubmit() returns (outcome: Outcome<FormData>)
      ensures Blank(formData, "clientId") ==> outcome == Blocked(MissingClient)
      ensures !Blank(formData, "clientId") && Blank(formData, "clientType") ==> outcome == Blocked(MissingClientType)
      ensures outcome.Submitted? <==> !Blank(formData, "clientId") && !Blank(formData, "clientType")
      ensures outcome.Submitted? ==> outcome.payload == formData
    {
      if "clientId" !in formData || formData["clientId"] == "" {
        return Blocked(MissingClient);
      }
      if "clientType" !in formData || formData["clientType"] == "" {
        return Blocked(MissingClientType);
      }
      return Submitted(formData);
    }
  }

  /** Closing the form and reopening it leaves nothing to submit: the
      first check fails again. */
  method ResetThenSubmit(form: OnBoarding) returns (outcome: Outcome<FormData>)
    modifies form
    ensures outcome == Blocked(MissingClient)
  {
    form.OpenChanged(false);
    form.OpenChanged(true);
    outcome := form.HandleSubmit();
  }
}
