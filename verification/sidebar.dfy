/**
 * The dashboard sidebar: which navigation item is highlighted for the
 * current path.
 */
module Sidebar {
  import opened Text

  const Home := "/dashboard"

  /** `isActivePage`: the overview is active only on its own path; any other
      item is active on every path that starts with its own. */
  predicate IsActivePage(pathname: string, href: string) {
    if href == Home then pathname == href else StartsWith(pathname, href)
  }

  /** A navigation entry. */
  datatype NavItem = NavItem(id: string, title: string, href: string)

  /** An entry as rendered, with its highlight. */
  datatype RenderedItem = RenderedItem(item: NavItem, isActive: bool)

  /** The rendered navigation: the items in order, each highlighted exactly
      when its path is active. */
  function Render(items: seq<NavItem>, pathname: string): (r: seq<RenderedItem>)
    ensures |r| == |items|
    ensures forall i :: 0 <= i < |items| ==>
      r[i].item == items[i] && (r[i].isActive <==> IsActivePage(pathname, items[i].href))
  {
    if items == [] then []
    else [RenderedItem(items[0], IsActivePage(pathname, items[0].href))] + Render(items[1..], pathname)
  }

  /** Every item is active on its own path, and an item other than the
      overview stays active below it. */
  lemma ActiveOnOwnPath(href: string, rest: string)
    ensures IsActivePage(href, href)
    ensures href != Home ==> IsActivePage(href + rest, href)
  {
    assert (href + rest)[..|href|] == href;
  }

  /** Below the overview, the overview is not active. */
  lemma HomeOnlyExact(rest: string)
    requires rest != ""
    ensures !IsActivePage(Home + rest, Home)
  {
    assert |Home + rest| != |Home|;
  }

  /** The layout's four entries. */
  function LayoutItems(): seq<NavItem> {
    [NavItem("overview", "Resumen", "/dashboard"),
     NavItem("environmental", "Histórico", "/dashboard/history"),
     NavItem("sensors", "Sensores", "/dashboard/sensors"),
     NavItem("alerts", "Alertas", "/dashboard/alerts")]
  }

  /** A path cannot start with two texts that differ at a position both
      have. */
  lemma DifferAt(pathname: string, a: string, b: string, k: int)
    requires 0 <= k < |a| && k < |b| && a[k] != b[k]
    ensures !(StartsWith(pathname, a) && StartsWith(pathname, b))
  {
    assert StartsWith(pathname, a) ==> pathname[k] == a[k] by {
      if StartsWith(pathname, a) {
        assert pathname[..|a|][k] == pathname[k];
      }
    }
    assert StartsWith(pathname, b) ==> pathname[k] == b[k] by {
      if StartsWith(pathname, b) {
        assert pathname[..|b|][k] == pathname[k];
      }
    }
  }

  /** On any path, at most one of the layout's entries is highlighted. */
  lemma AtMostOneActive(pathname: string, i: int, j: int)
    requires 0 <= i < j < |LayoutItems()|
    ensures !(IsActivePage(pathname, LayoutItems()[i].href) && IsActivePage(pathname, LayoutItems()[j].href))
  {
    var a := LayoutItems()[i].href;
    var b := LayoutItems()[j].href;
    assert |b| > |Home| && b != Home;
    if i > 0 {
      assert a != Home && |a| > 11 && |b| > 11 && a[11] != b[11];
      DifferAt(pathname, a, b, 11);
    }
  }

  /** On the alerts page only the alerts entry is highlighted. */
  lemma AlertsPageHighlight()
    ensures var r := Render(LayoutItems(), "/dashboard/alerts");
      r[3].isActive && !r[0].isActive && !r[1].isActive && !r[2].isActive
  {
    var r := Render(LayoutItems(), "/dashboard/alerts");
    ActiveOnOwnPath("/dashboard/alerts", "");
    AtMostOneActive("/dashboard/alerts", 0, 3);
    AtMostOneActive("/dashboard/alerts", 1, 3);
    AtMostOneActive("/dashboard/alerts", 2, 3);
  }
}
