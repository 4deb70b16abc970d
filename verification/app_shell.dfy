/** The navigation shell's active-link predicate and the three primary
    navigation links it is applied to. */
module AppShell {
  import opened Js

  const DashboardHref := "/dashboard"
  const SnippetsHref := "/dashboard/snippets"
  const ConfigsHref := "/dashboard/configs"

  /** `isActive(href)` against the current pathname: the dashboard link is
      active only on the dashboard itself, every other link on any pathname
      that starts with its href, character by character. */
  predicate IsActive(pathname: string, href: string)
    ensures IsActive(pathname, href) ==> href <= pathname
    ensures href != DashboardHref && href <= pathname ==> IsActive(pathname, href)
  {
    if href == DashboardHref then pathname == DashboardHref else StartsWith(pathname, href)
  }

  /** The primary navigation links, in the order they are rendered, that are
      shown as active for the pathname. */
  function ActiveLinks(pathname: string): (r: seq<string>)
    ensures forall h :: h in r <==>
      (h == DashboardHref || h == SnippetsHref || h == ConfigsHref) && IsActive(pathname, h)
  {
    (if IsActive(pathname, DashboardHref) then [DashboardHref] else [])
    + (if IsActive(pathname, SnippetsHref) then [SnippetsHref] else [])
    + (if IsActive(pathname, ConfigsHref) then [ConfigsHref] else [])
  }

  /** The dashboard link is active exactly on "/dashboard". */
  lemma DashboardExactOnly(pathname: string)
    ensures IsActive(pathname, DashboardHref) <==> pathname == "/dashboard"
  {
  }

  /** For any other href, the link is active iff its href is a prefix of
      the pathname. */
  lemma OtherLinksByPrefix(pathname: string, href: string)
    requires href != DashboardHref
    ensures IsActive(pathname, href) <==> href <= pathname
  {
  }

  /** No sub-route of the dashboard, such as "/dashboard/snippets/1/edit",
      activates the dashboard link. */
  lemma DashboardInactiveBelow(rest: string)
    requires rest != ""
    ensures !IsActive(DashboardHref + rest, DashboardHref)
  {
  }

  /** Every pathname that extends the Snippets or the Configs href, whether
      a descendant route such as "/dashboard/snippets/new" or merely a longer
      word such as "/dashboard/snippetsX", activates that link. */
  lemma SectionActiveOnExtensions(href: string, rest: string)
    requires href == SnippetsHref || href == ConfigsHref
    ensures IsActive(href + rest, href)
  {
  }

  /** At most one primary navigation link is active for any pathname. */
  lemma AtMostOneActive(pathname: string)
    ensures |ActiveLinks(pathname)| <= 1
  {
    if IsActive(pathname, DashboardHref) {
      assert |pathname| == 10 < |SnippetsHref| && |pathname| < |ConfigsHref|;
    }
    if IsActive(pathname, SnippetsHref) {
      assert pathname[11] == 's' by {
        assert pathname[..|SnippetsHref|][11] == SnippetsHref[11];
      }
      assert !StartsWith(pathname, ConfigsHref) by {
        if |ConfigsHref| <= |pathname| {
          assert pathname[..|ConfigsHref|][11] != ConfigsHref[11];
        }
      }
    }
  }

  /** On an edit route of a snippet, the Snippets link is the only active one. */
  lemma SnippetEditRouteActivatesSnippets()
    ensures ActiveLinks("/dashboard/snippets/1/edit") == [SnippetsHref]
  {
    assert "/dashboard/snippets/1/edit" == SnippetsHref + "/1/edit";
    SectionActiveOnExtensions(SnippetsHref, "/1/edit");
    AtMostOneActive("/dashboard/snippets/1/edit");
  }
}
