/** The super-admin organization grid: its search and which of the loading, error, empty
    and grid states is shown. */
module SuperAdminOrganizationsPage {
  import opened Wrappers
  import opened Text
  import opened Lists
  import opened Entities

  /** An organization matches when the lower-cased query is in its lower-cased name or slug. */
  predicate OrganizationMatches(org: Organization, query: string) {
    Contains(Lower(org.name), Lower(query)) || Contains(Lower(org.slug), Lower(query))
  }

  /** `organizations.filter(...)`, with missing data read as the empty list; unlike the
      user and course lists there is no shortcut for an empty query. */
  function FilterOrganizations(organizations: Option<seq<Organization>>, query: string): (r: seq<Organization>)
    ensures forall o :: o in r <==> o in organizations.GetOr([]) && OrganizationMatches(o, query)
    ensures IsSubsequence(r, organizations.GetOr([]))
  {
    var all := organizations.GetOr([]);
    var keep := (o: Organization) => OrganizationMatches(o, query);
    FilterMembers(all, keep);
    FilterIsSubsequence(all, keep);
    Filter(all, keep)
  }

  /** An empty query keeps every organization, in order, because every string includes
      the empty string. */
  lemma EmptyQueryKeepsAll(organizations: Option<seq<Organization>>)
    ensures FilterOrganizations(organizations, "") == organizations.GetOr([])
  {
    var all := organizations.GetOr([]);
    forall o | o in all ensures OrganizationMatches(o, "") {
      ContainsEmpty(Lower(o.name));
    }
    FilterKeepsAll(all, (o: Organization) => OrganizationMatches(o, ""));
  }

  /** What the area under the search bar shows once loading and errors are out of the way. */
  datatype GridState = Cards(shown: seq<Organization>) | NoneYet | NoMatch

  /** The grid appears only when neither loading nor failed; an empty result says "none
      yet" when there are no organizations at all and "no match" otherwise. */
  function Grid(isLoading: bool, failed: bool, organizations: Option<seq<Organization>>, query: string): (g: Option<GridState>)
    ensures g.Some? <==> !isLoading && !failed
    ensures g == Some(NoneYet) <==> !isLoading && !failed && organizations.GetOr([]) == []
    ensures g == Some(NoMatch) ==> organizations.GetOr([]) != [] && FilterOrganizations(organizations, query) == []
    ensures g.Some? && g.value.Cards? ==> g.value.shown == FilterOrganizations(organizations, query) && g.value.shown != []
  {
    if isLoading || failed then None
    else
      var shown := FilterOrganizations(organizations, query);
      if shown == [] then
        (if organizations.GetOr([]) == [] then Some(NoneYet) else Some(NoMatch))
      else
        assert organizations.GetOr([]) != [] by {
          assert shown[0] in organizations.GetOr([]);
        }
        Some(Cards(shown))
  }

  const NoneYetMessage: string := "No organizations found. Create your first organization to get started."
  const NoMatchMessage: string := "No organizations match your search."
}
