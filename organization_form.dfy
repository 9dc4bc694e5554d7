/** The super-admin organization form: the payload its submit handler builds, the settings
    block, its feature flags and its error and label state. */
module OrganizationForm {
  import opened Wrappers
  import opened Text
  import opened Entities
  import opened Forms

  const SaveFallback: string := "Failed to save organization"
  const Saving: string := "Saving..."
  const UpdateLabel: string := "Update Organization"
  const CreateLabel: string := "Create Organization"

  /** The form after a checkbox without a `value` attribute has been ticked or not: a ticked
      box is submitted with the value "on", an unticked one is not submitted at all. */
  function WithCheckbox(form: FormData, name: string, ticked: bool): (f: FormData)
    ensures ticked ==> name in f && f[name] == "on"
    ensures !ticked ==> name !in f
    ensures forall k :: k in form && k != name ==> k in f && f[k] == form[k]
  {
    if ticked then form[name := "on"] else form - {name}
  }

  /** The settings as the handler reads them: `maxUsers` parsed when non-empty, and each
      feature flag true iff its value is exactly "true". */
  function SettingsAsWritten(form: FormData): (s: OrgSettings)
    ensures s.maxUsers == ParsedField(form, "maxUsers")
    ensures s.features.messaging <==> Field(form, "messaging") == Some("true")
    ensures s.features.notifications <==> Field(form, "notifications") == Some("true")
    ensures s.features.analytics <==> Field(form, "analytics") == Some("true")
  {
    OrgSettings(ParsedField(form, "maxUsers"),
      Features(ValueIsTrue(form, "messaging"), ValueIsTrue(form, "notifications"), ValueIsTrue(form, "analytics")))
  }

  /** The three feature inputs are checkboxes without a value, so whatever the user ticks,
      every flag of the submitted settings is false. */
  lemma {:induction false} CheckboxFlagsAlwaysFalse(form: FormData, messaging: bool, notifications: bool, analytics: bool)
    ensures SettingsAsWritten(WithCheckbox(WithCheckbox(WithCheckbox(form, "messaging", messaging),
      "notifications", notifications), "analytics", analytics)).features == Features(false, false, false)
  {
    var f1 := WithCheckbox(form, "messaging", messaging);
    var f2 := WithCheckbox(f1, "notifications", notifications);
    var f3 := WithCheckbox(f2, "analytics", analytics);
    assert "messaging" in f3 ==> f3["messaging"] == "on" by {
      assert "messaging" != "notifications" && "messaging" != "analytics";
    }
    assert "notifications" in f3 ==> f3["notifications"] == "on" by {
      assert "notifications" != "analytics";
    }
  }

  /** A checkbox is ticked when the form carries its name. */
  predicate Ticked(form: FormData, name: string) {
    name in form
  }

  /** The settings as the form evidently intends them: the flags are the ticked boxes. */
  function Settings(form: FormData): (s: OrgSettings)
    ensures s.maxUsers == ParsedField(form, "maxUsers")
    ensures s.features.messaging <==> Ticked(form, "messaging")
    ensures s.features.notifications <==> Ticked(form, "notifications")
    ensures s.features.analytics <==> Ticked(form, "analytics")
  {
    OrgSettings(ParsedField(form, "maxUsers"),
      Features(Ticked(form, "messaging"), Ticked(form, "notifications"), Ticked(form, "analytics")))
  }

  /** With the corrected reading, each flag is exactly whether its box was ticked. */
  lemma {:induction false} CheckboxFlagsFollowTicks(form: FormData, messaging: bool, notifications: bool, analytics: bool)
    ensures Settings(WithCheckbox(WithCheckbox(WithCheckbox(form, "messaging", messaging),
      "notifications", notifications), "analytics", analytics)).features == Features(messaging, notifications, analytics)
  {
    var f1 := WithCheckbox(form, "messaging", messaging);
    var f2 := WithCheckbox(f1, "notifications", notifications);
    var f3 := WithCheckbox(f2, "analytics", analytics);
    assert "messaging" in f3 <==> messaging by {
      assert "messaging" != "notifications" && "messaging" != "analytics";
    }
    assert "notifications" in f3 <==> notifications by {
      assert "notifications" != "analytics";
    }
  }

  class OrganizationFormState {
    var error: string
    var settingsEnabled: bool
    const editing: bool

    /** The settings block starts open exactly when the organization being edited has
        settings. */
    constructor(initialData: Option<Organization>)
      ensures error == ""
      ensures settingsEnabled <==> initialData.Some? && initialData.value.settings.Some?
      ensures editing <==> initialData.Some?
    {
      error := "";
      settingsEnabled := initialData.Some? && initialData.value.settings.Some?;
      editing := initialData.Some?;
    }

    /** The "Configure Advanced Settings" checkbox. */
    method ToggleSettings(checked: bool)
      modifies this
      ensures settingsEnabled == checked && error == old(error)
    {
      settingsEnabled := checked;
    }

    /** The submit button's label. */
    function SubmitLabel(isSubmitting: bool): (caption: string)
      reads this
      ensures isSubmitting ==> caption == Saving
      ensures !isSubmitting ==> (caption == UpdateLabel <==> editing)
      ensures !isSubmitting && !editing ==> caption == CreateLabel
    {
      if isSubmitting then Saving else if editing then UpdateLabel else CreateLabel
    }

    /** `handleSubmit`. The error is cleared; name and slug are sent as given and an empty
        domain or description becomes absent; settings are attached exactly when the
        settings block is enabled, read as written: each flag is true only for the value
        "true", which a ticked box (submitting "on") never gives; a failed
        `onSubmit` shows its message or the fallback. */
    method HandleSubmit(form: FormData, submitResult: Outcome<Option<string>>) returns (data: OrganizationRequest)
      modifies this
      ensures settingsEnabled == old(settingsEnabled)
      ensures data.name == Field(form, "name") && data.slug == Field(form, "slug")
      ensures data.domain == OptionalField(form, "domain") && data.description == OptionalField(form, "description")
      ensures data.adminEmail.None? && data.adminPassword.None? && data.adminStudentId.None?
      ensures data.settings.Some? <==> settingsEnabled
      ensures data.settings.Some? ==> data.settings.value == SettingsAsWritten(form)
      ensures submitResult.Pass? ==> error == ""
      ensures submitResult.Fail? ==> error == Or(submitResult.error, SaveFallback) && error != ""
    {
      error := "";
      data := OrganizationRequest(Field(form, "name"), Field(form, "slug"),
        OptionalField(form, "domain"), OptionalField(form, "description"),
        None, None, None, None, None, None);
      if settingsEnabled {
        data := data.(settings := Some(SettingsAsWritten(form)));
      }
      if submitResult.Fail? {
        error := Or(submitResult.error, SaveFallback);
      }
    }
  }
}
