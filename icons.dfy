/** The Clickons icon set: the alias table, name resolution and the icon file path. Loading
    and inlining the SVG file is browser I/O and is not part of this model. */
module Icons {
  import opened Wrappers
  import opened Text

  /** `ClickonsIconMap`: the names used in the application mapped to the icon set's
      names; `None` for a name the table does not list. */
  function TableEntry(alias: string): Option<string> {
    match alias
    case "dashboard" => Some("dashboard")
    case "users" => Some("users")
    case "people-group" => Some("users-group")
    case "user-circle" => Some("user")
    case "person" => Some("user")
    case "book" => Some("book")
    case "book-open" => Some("book-open")
    case "search" => Some("search")
    case "settings" => Some("settings")
    case "settings-horizontal" => Some("settings")
    case "plus" => Some("plus")
    case "edit" => Some("edit")
    case "pencil" => Some("edit")
    case "trash" => Some("trash")
    case "trash-can" => Some("trash")
    case "check" => Some("check")
    case "check-circle" => Some("check-circle")
    case "cross-circle" => Some("close-circle")
    case "x" => Some("close")
    case "x-circle" => Some("close-circle")
    case "home" => Some("home")
    case "building" => Some("building")
    case "building-2" => Some("building")
    case "chart-bar" => Some("chart-bar")
    case "bar-chart" => Some("chart-bar")
    case "activity" => Some("activity")
    case "graduation-cap" => Some("graduation-cap")
    case "school" => Some("graduation-cap")
    case "message" => Some("message")
    case "message-circle" => Some("message-circle")
    case "help" => Some("help")
    case "question" => Some("question-circle")
    case "arrow-up" => Some("arrow-up")
    case "arrow-down" => Some("arrow-down")
    case "chevron-left" => Some("chevron-left")
    case "chevron-right" => Some("chevron-right")
    case "chevron-down" => Some("chevron-down")
    case "more" => Some("more")
    case "more-horizontal" => Some("more-h")
    case "more-vertical" => Some("more-v")
    case "logout" => Some("logout")
    case "sign-out" => Some("logout")
    case "bell" => Some("bell")
    case "notification" => Some("bell")
    case "calendar" => Some("calendar")
    case "globe" => Some("globe")
    case "folder" => Some("folder")
    case "file" => Some("file")
    case "share" => Some("share")
    case "creditcard" => Some("credit-card")
    case _ => None
  }

  /** `getClickonsIconName`: the table's name for a listed alias, the alias itself otherwise. */
  function ResolveIconName(alias: string): (name: string)
    ensures TableEntry(alias).Some? ==> name == TableEntry(alias).value
    ensures TableEntry(alias).None? ==> name == alias
  {
    match TableEntry(alias)
    case Some(n) => if n != "" then n else alias
    case None => alias
  }

  /** Every name the table produces is either not listed or listed as itself. */
  lemma TableValuesAreFixed(alias: string)
    requires TableEntry(alias).Some?
    ensures TableEntry(TableEntry(alias).value).None? || TableEntry(TableEntry(alias).value) == TableEntry(alias)
  {
  }

  /** Resolving a resolved name changes nothing. */
  lemma ResolveIdempotent(alias: string)
    ensures ResolveIconName(ResolveIconName(alias)) == ResolveIconName(alias)
  {
    if TableEntry(alias).Some? {
      TableValuesAreFixed(alias);
    }
  }

  /** Several aliases share one icon. */
  lemma AliasesCollapse()
    ensures ResolveIconName("settings-horizontal") == ResolveIconName("settings") == "settings"
    ensures ResolveIconName("pencil") == ResolveIconName("edit") == "edit"
    ensures ResolveIconName("trash-can") == ResolveIconName("trash") == "trash"
  {
  }

  /** The two drawing styles of the set. */
  datatype Variant = Fill | Stroke

  function VariantName(v: Variant): (s: string)
    ensures s == "fill" || s == "stroke"
  {
    match v
    case Fill => "fill"
    case Stroke => "stroke"
  }

  const IconDirectory: string := "/icons/clickons/"

  /** The icon file: the set's directory, the variant (stroke by default), the name and the
      `.svg` extension. */
  function IconPath(name: string, variant: Option<Variant>): (path: string)
    ensures StartsWith(path, IconDirectory)
    ensures path[|path| - 4..] == ".svg"
  {
    IconDirectory + VariantName(variant.GetOr(Stroke)) + "/" + name + ".svg"
  }

  /** Different icons live in different files: the path determines the name and the
      variant. */
  lemma IconPathInjective(n1: string, v1: Variant, n2: string, v2: Variant)
    requires IconPath(n1, Some(v1)) == IconPath(n2, Some(v2))
    ensures n1 == n2 && v1 == v2
  {
    var p := IconPath(n1, Some(v1));
    var k := |IconDirectory|;
    assert p[k] == VariantName(v1)[0];
    assert p[k] == VariantName(v2)[0];
    assert v1 == v2;
    var head := IconDirectory + VariantName(v1) + "/";
    SameFrame(head, n1, n2, ".svg");
  }

  /** Two strings framed alike are alike. */
  lemma SameFrame(head: string, x: string, y: string, tail: string)
    requires head + x + tail == head + y + tail
    ensures x == y
  {
    var p := head + x + tail;
    assert |x| == |y|;
    assert x == p[|head|..|head| + |x|];
    assert y == (head + y + tail)[|head|..|head| + |y|];
  }

  /** Leaving the variant out is the same as asking for the stroke variant. */
  lemma StrokeIsDefault(name: string)
    ensures IconPath(name, None) == IconPath(name, Some(Stroke))
  {
  }
}
