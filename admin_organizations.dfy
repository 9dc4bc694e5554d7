/** The admin organizations page: the creation handler's validation and payload, and the
    table's cell fallbacks. */
module AdminOrganizationsPage {
  import opened Wrappers
  import opened Text
  import opened Entities
  import opened Forms

  const FillRequired: string := "Please fill in all required fields"
  const NotAvailable: string := "N/A"

  /** `if (maxUsers) data.settings = {...}`: settings only when `maxUsers` is non-empty,
      with every flag true iff its select says "true". */
  function PageSettings(form: FormData): (s: Option<OrgSettings>)
    ensures s.Some? <==> Truthy(Field(form, "maxUsers"))
    ensures s.Some? ==>
      s.value.maxUsers == Some(ParseInt(form["maxUsers"]))
      && (s.value.features.messaging <==> ValueIsTrue(form, "messaging"))
      && (s.value.features.notifications <==> ValueIsTrue(form, "notifications"))
      && (s.value.features.analytics <==> ValueIsTrue(form, "analytics"))
  {
    if Truthy(Field(form, "maxUsers")) then
      Some(OrgSettings(Some(ParseInt(form["maxUsers"])),
        Features(ValueIsTrue(form, "messaging"), ValueIsTrue(form, "notifications"), ValueIsTrue(form, "analytics"))))
    else None
  }

  /** The page's create form has no "maxUsers" input, so what it submits never carries
      settings, whatever the analytics select says. */
  lemma PageFormNeverSendsSettings(form: FormData)
    requires "maxUsers" !in form
    ensures PageSettings(form).None?
  {
  }

  /** `handleCreateOrganization`: the mutation is dispatched only when the six required
      fields are filled, and then with exactly the payload read from the form plus the
      settings; otherwise the page reports the missing fields. */
  method HandleCreateOrganization(form: FormData) returns (dispatched: Option<OrganizationRequest>, toast: Option<string>)
    ensures dispatched.Some? <==> RequiredFilled(BuildOrganizationRequest(form))
    ensures dispatched.Some? ==>
      toast.None? && dispatched.value == BuildOrganizationRequest(form).(settings := PageSettings(form))
    ensures dispatched.None? ==> toast == Some(FillRequired)
  {
    var data := BuildOrganizationRequest(form);
    if !RequiredFilled(data) {
      dispatched, toast := None, Some(FillRequired);
      return;
    }
    var maxUsers := Field(form, "maxUsers");
    if Truthy(maxUsers) {
      data := data.(settings := Some(OrgSettings(Some(ParseInt(maxUsers.value)),
        Features(ValueIsTrue(form, "messaging"), ValueIsTrue(form, "notifications"), ValueIsTrue(form, "analytics")))));
    }
    dispatched, toast := Some(data), None;
  }

  /** One table row as shown. */
  datatype Row = Row(name: string, slug: string, domain: string, status: string, statusVariant: string, created: Option<int>)

  /** The Domain column falls back to "N/A"; Status reads "Active" exactly when the
      organization is active; Created is a date only when one is known. */
  function RowOf(org: Organization): (r: Row)
    ensures r.name == org.name && r.slug == org.slug
    ensures Truthy(org.domain) ==> r.domain == org.domain.value
    ensures !Truthy(org.domain) ==> r.domain == NotAvailable
    ensures r.status == "Active" <==> org.isActive
    ensures r.statusVariant == "default" <==> org.isActive
    ensures r.created == org.createdAt
  {
    Row(org.name, org.slug, Or(org.domain, NotAvailable),
      if org.isActive then "Active" else "Inactive",
      if org.isActive then "default" else "secondary",
      org.createdAt)
  }
}
