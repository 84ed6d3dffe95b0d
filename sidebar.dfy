/** The dashboard's navigation sidebar (components/dashboard/sidebar.tsx):
    five fixed links, one of which is highlighted for the current path. */
module Sidebar {
  datatype NavItem = NavItem(name: string, href: string)

  const Root := "/dashboard"

  /** `navigation`: the five links in display order. */
  const Navigation: seq<NavItem> := [
    NavItem("Dashboard", Root),
    NavItem("Bookings", Root + "/bookings"),
    NavItem("Websites", Root + "/websites"),
    NavItem("Sync Logs", Root + "/sync-logs"),
    NavItem("Settings", Root + "/settings")]

  /** `isActive`: the path is the link's own, or, for any link but the
      dashboard home, the path starts with the link (a plain string prefix,
      with no "/" boundary). */
  predicate IsActive(pathname: string, href: string)
  {
    pathname == href || (href != Root && href <= pathname)
  }

  /** The home link is highlighted on its own path only. */
  lemma HomeActiveOnlyAtHome(pathname: string)
    ensures IsActive(pathname, Navigation[0].href) <==> pathname == Root
  {
  }

  /** Any other link is highlighted on its own path and on every path
      below it. */
  lemma SectionActiveBelow(i: nat, rest: string)
    requires 1 <= i < |Navigation|
    ensures IsActive(Navigation[i].href + rest, Navigation[i].href)
  {
  }

  /** The test has no "/" boundary: a longer sibling name that merely begins
      with a section's name also highlights that section. */
  lemma PrefixWithoutBoundary()
    ensures IsActive(Root + "/bookings-archive", Navigation[1].href)
  {
    assert Root + "/bookings-archive" == Navigation[1].href + "-archive";
  }

  /** Strings that differ at some position are never both prefixes of
      one string. */
  lemma PrefixesDiverge(a: string, b: string, s: string, k: nat)
    requires k < |a| && k < |b| && a[k] != b[k]
    ensures !(a <= s && b <= s)
  {
    if a <= s {
      assert s[k] == a[k] != b[k];
    }
  }

  /** The section links start with the home path and then part ways at the
      character after "/dashboard/". */
  lemma SectionHrefs()
    ensures forall i :: 1 <= i < |Navigation| ==> |Navigation[i].href| > 11 && Navigation[i].href[..11] == Root + "/"
    ensures Navigation[1].href[11] == 'b' && Navigation[2].href[11] == 'w'
    ensures Navigation[3].href[11] == 's' && Navigation[3].href[12] == 'y'
    ensures Navigation[4].href[11] == 's' && Navigation[4].href[12] == 'e'
  {
  }

  /** The five links are distinct. */
  lemma NavigationDistinct()
    ensures |Navigation| == 5
    ensures forall i, j :: 0 <= i < j < |Navigation| ==> Navigation[i].href != Navigation[j].href
  {
    SectionHrefs();
  }

  /** Whatever the path, no two links are highlighted together. */
  lemma AtMostOneActive(pathname: string, i: nat, j: nat)
    requires i < |Navigation| && j < |Navigation| && i != j
    ensures !(IsActive(pathname, Navigation[i].href) && IsActive(pathname, Navigation[j].href))
  {
    SectionHrefs();
    var a := Navigation[i].href;
    var b := Navigation[j].href;
    if i == 0 || j == 0 {
      var section := if i == 0 then b else a;
      if pathname == Root {
        assert |section| > |pathname|;
        assert !(section <= pathname) && section != pathname;
      }
    } else if (i == 3 && j == 4) || (i == 4 && j == 3) {
      PrefixesDiverge(a, b, pathname, 12);
    } else {
      PrefixesDiverge(a, b, pathname, 11);
    }
  }
}
