/** The main navigation: which sections are drawn and which item is highlighted for the
    current path. */
module NavMain {
  import opened Wrappers
  import opened Text

  datatype NavItem = NavItem(title: string, url: string)
  datatype NavSection = NavSection(heading: Option<string>, items: seq<NavItem>)

  /** Every item of every section, in order. */
  function AllItems(sections: seq<NavSection>): seq<NavItem> {
    if sections == [] then [] else AllItems(sections[..|sections| - 1]) + sections[|sections| - 1].items
  }

  /** `sections || (items ? [{ items }] : [])`: the sections when given, else the flat
      item list as one unlabelled section, else nothing. */
  function NavSections(items: Option<seq<NavItem>>, sections: Option<seq<NavSection>>): (r: seq<NavSection>)
    ensures sections.Some? ==> r == sections.value
    ensures sections.None? ==> AllItems(r) == items.GetOr([]) && forall s :: s in r ==> s.heading.None?
    ensures sections.None? && items.Some? ==> r == [NavSection(None, items.value)]
    ensures sections.None? && items.None? ==> r == []
  {
    if sections.Some? then sections.value
    else if items.Some? then
      assert AllItems([NavSection(None, items.value)]) == AllItems([]) + items.value;
      [NavSection(None, items.value)]
    else []
  }

  const AdminRoot: string := "/admin"
  const SuperAdminRoot: string := "/super-admin"

  /** The item for `url` is active on its own page and, unless it is one of the two
      dashboard roots, on every page below it. */
  predicate IsActive(pathname: Option<string>, url: string) {
    pathname == Some(url)
    || (url != AdminRoot && url != SuperAdminRoot && pathname.Some? && StartsWith(pathname.value, url + "/"))
  }

  /** Both directions: an item is active exactly on its own path or, for a non-root item,
      on a path that continues it after a "/". */
  lemma {:induction false} IsActiveIff(pathname: string, url: string)
    ensures IsActive(Some(pathname), url) <==>
      pathname == url
      || (url != AdminRoot && url != SuperAdminRoot && exists rest :: pathname == url + "/" + rest)
  {
    if url != AdminRoot && url != SuperAdminRoot && StartsWith(pathname, url + "/") {
      var rest := pathname[|url| + 1..];
      assert pathname == url + "/" + rest;
    }
    forall rest | pathname == url + "/" + rest
      ensures StartsWith(pathname, url + "/")
    {
      assert pathname[..|url| + 1] == url + "/";
    }
  }

  /** The dashboard roots are active only on an exact match, so no child route
      highlights them. */
  lemma RootsMatchExactly(pathname: Option<string>, url: string)
    requires url == AdminRoot || url == SuperAdminRoot
    ensures IsActive(pathname, url) <==> pathname == Some(url)
  {
  }

  /** A prefix without the "/" separator does not count. */
  lemma SeparatorRequired()
    ensures !IsActive(Some("/admin/usersx"), "/admin/users")
  {
    assert "/admin/usersx"[12] == 'x';
  }

  /** With no pathname nothing is active. */
  lemma NoPathNoActive(url: string)
    ensures !IsActive(None, url)
  {
  }
}
