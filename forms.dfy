/** Reading a submitted form the way the handlers do, and the organization-creation
    payload they build from it. */
module Forms {
  import opened Wrappers
  import opened Text
  import opened Entities

  /** A submitted form: field name to value. A field the form does not have is absent
      (`formData.get` gives null). */
  type FormData = map<string, string>

  /** `formData.get(name)`. */
  function Field(form: FormData, name: string): (v: Option<string>)
    ensures v.Some? <==> name in form
    ensures v.Some? ==> v.value == form[name]
  {
    if name in form then Some(form[name]) else None
  }

  /** `(formData.get(name) as string) || undefined`: an empty or missing field is absent. */
  function OptionalField(form: FormData, name: string): (v: Option<string>)
    ensures v.Some? <==> name in form && form[name] != ""
    ensures v.Some? ==> v.value == form[name]
  {
    EmptyToAbsent(Field(form, name).GetOr(""))
  }

  /** `formData.get(name) ? parseInt(formData.get(name)) : undefined`. */
  function ParsedField(form: FormData, name: string): (v: Option<JsNumber>)
    ensures v.Some? <==> Truthy(Field(form, name))
    ensures v.Some? ==> v.value == ParseInt(form[name])
  {
    if Truthy(Field(form, name)) then Some(ParseInt(form[name])) else None
  }

  /** `formData.get(name) === "true"`. */
  predicate ValueIsTrue(form: FormData, name: string) {
    Field(form, name) == Some("true")
  }

  /** The payload that creates an organization. The organization form sends only the
      first four fields and the settings; the onboarding and admin pages also send the
      first administrator's account. */
  datatype OrganizationRequest = OrganizationRequest(
    name: Option<string>,
    slug: Option<string>,
    domain: Option<string>,
    description: Option<string>,
    adminEmail: Option<string>,
    adminFirstName: Option<string>,
    adminLastName: Option<string>,
    adminPassword: Option<string>,
    adminStudentId: Option<JsNumber>,
    settings: Option<OrgSettings>)

  /** The payload the onboarding form and the admin organizations page read from their
      forms, before any settings are added. */
  function BuildOrganizationRequest(form: FormData): (r: OrganizationRequest)
    ensures r.name == Field(form, "name") && r.slug == Field(form, "slug")
    ensures r.domain == OptionalField(form, "domain") && r.description == OptionalField(form, "description")
    ensures r.adminEmail == Field(form, "adminEmail") && r.adminPassword == Field(form, "adminPassword")
    ensures r.adminFirstName == Field(form, "adminFirstName") && r.adminLastName == Field(form, "adminLastName")
    ensures r.adminStudentId == ParsedField(form, "adminStudentId")
    ensures r.settings.None?
  {
    OrganizationRequest(
      Field(form, "name"), Field(form, "slug"),
      OptionalField(form, "domain"), OptionalField(form, "description"),
      Field(form, "adminEmail"), Field(form, "adminFirstName"), Field(form, "adminLastName"),
      Field(form, "adminPassword"), ParsedField(form, "adminStudentId"), None)
  }

  /** The six fields both creation handlers insist on. */
  predicate RequiredFilled(r: OrganizationRequest) {
    Truthy(r.name) && Truthy(r.slug) && Truthy(r.adminEmail)
    && Truthy(r.adminFirstName) && Truthy(r.adminLastName) && Truthy(r.adminPassword)
  }

  /** The fields both creation handlers insist on. */
  const RequiredFields: seq<string> := ["name", "slug", "adminEmail", "adminFirstName", "adminLastName", "adminPassword"]

  /** The form has the field, and it is not empty. */
  predicate Filled(form: FormData, name: string) {
    name in form && form[name] != ""
  }

  /** A payload passes the required check exactly when the form has all six fields
      non-empty. */
  lemma RequiredFilledIff(form: FormData)
    ensures RequiredFilled(BuildOrganizationRequest(form)) <==>
      forall name :: name in RequiredFields ==> Filled(form, name)
  {
    var r := BuildOrganizationRequest(form);
    assert Truthy(r.name) == Filled(form, RequiredFields[0]);
    assert Truthy(r.slug) == Filled(form, RequiredFields[1]);
    assert Truthy(r.adminEmail) == Filled(form, RequiredFields[2]);
    assert Truthy(r.adminFirstName) == Filled(form, RequiredFields[3]);
    assert Truthy(r.adminLastName) == Filled(form, RequiredFields[4]);
    assert Truthy(r.adminPassword) == Filled(form, RequiredFields[5]);
  }
}
