/**
 * The dashboard sidebar: which navigation links a user sees, which one is
 * active, and whether the sidebar is collapsed (the parent's value when it
 * passes one, the sidebar's own state otherwise).
 */
module Sidebar {
  import opened Wrappers
  import Seqs

  datatype NavItem = NavItem(name: string, href: string, adminOnly: bool)

  /** Every navigation item, in the order the sidebar lists them. */
  const AllNavData: seq<NavItem> := [
    NavItem("Panel", "/dashboard/panel", true),
    NavItem("Orders", "/dashboard/orders", true),
    NavItem("Chat", "/dashboard/chat", false),
    NavItem("Users", "/dashboard/users", true)
  ]

  /** `navdata`: nothing while auth loads; otherwise the items a user of that role may open, in order. */
  function NavData(loading: bool, isAdmin: bool): (r: seq<NavItem>)
    ensures loading ==> r == []
    ensures !loading ==> Seqs.IsSubsequence(r, AllNavData)
    ensures !loading ==> forall i :: 0 <= i < |AllNavData| ==>
      (AllNavData[i] in r <==> !AllNavData[i].adminOnly || isAdmin)
  {
    if loading then []
    else
      var r := Seqs.Filter(AllNavData, (item: NavItem) => !item.adminOnly || isAdmin);
      assert forall i :: 0 <= i < |r| ==> r[i] in AllNavData && (!r[i].adminOnly || isAdmin);
      r
  }

  /** An admin sees Panel, Orders, Chat and Users; anyone else sees only Chat. */
  lemma NavByRole()
    ensures NavData(false, true) == AllNavData
    ensures NavData(false, false) == [AllNavData[2]]
    ensures AllNavData[2].name == "Chat"
  {
    Seqs.FilterAll(AllNavData, (item: NavItem) => !item.adminOnly || true);
    assert Seqs.Filter(AllNavData, (item: NavItem) => !item.adminOnly || false) == [AllNavData[2]];
  }

  /** A link is highlighted exactly when its href is the active link. */
  function IsActive(item: NavItem, activeLink: string): (b: bool)
    ensures b <==> item.href == activeLink
  {
    item.href == activeLink
  }

  /** At most one of the listed links is active, since the hrefs are distinct. */
  lemma AtMostOneActive(activeLink: string)
    ensures forall i, j :: 0 <= i < j < |AllNavData| ==>
      !(IsActive(AllNavData[i], activeLink) && IsActive(AllNavData[j], activeLink))
  {
  }

  class SidebarState {
    var activeLink: string
    var internalIsCollapsed: bool

    /** The panel link is active and the sidebar is expanded until told otherwise. */
    constructor ()
      ensures activeLink == "/dashboard/panel" && !internalIsCollapsed
    {
      activeLink := "/dashboard/panel";
      internalIsCollapsed := false;
    }

    /** The collapsed flag: the parent's value when given, the sidebar's own otherwise. */
    function IsCollapsed(external: Option<bool>): (b: bool)
      reads this
      ensures external.Some? ==> b == external.value
      ensures external.None? ==> b == internalIsCollapsed
    {
      external.GetOr(internalIsCollapsed)
    }

    /** The path changes: it becomes the active link. */
    method PathnameChanged(pathname: string)
      modifies this
      ensures activeLink == pathname && internalIsCollapsed == old(internalIsCollapsed)
    {
      activeLink := pathname;
    }

    /**
     * The collapse button asks for the opposite of the shown flag: from the
     * parent's setter when one is passed (the answer), else by flipping the
     * sidebar's own flag.
     */
    method ToggleCollapsed(external: Option<bool>, hasExternalSetter: bool) returns (toParent: Option<bool>)
      modifies this
      ensures hasExternalSetter ==> toParent == Some(!old(IsCollapsed(external)))
      ensures hasExternalSetter ==> internalIsCollapsed == old(internalIsCollapsed)
      ensures !hasExternalSetter ==> toParent.None? && internalIsCollapsed == !old(IsCollapsed(external))
      ensures activeLink == old(activeLink)
    {
      var next := !IsCollapsed(external);
      if hasExternalSetter {
        toParent := Some(next);
      } else {
        internalIsCollapsed := next;
        toParent := None;
      }
    }
  }
}
