/** The sidebar's submenu state (`AppSidebar`): which parent item, if any,
    has its submenu open. A parent's button toggles its own submenu unless
    the parent is disabled, and every change of route re-opens the submenu
    holding the current page, or closes them all. */
module AppSidebar {
  import opened Optional

  datatype MenuType = Main | Others

  datatype SubItem = SubItem(name: string, path: string, disabled: bool)

  datatype NavItem = NavItem(
    name: string,
    path: Option<string>,
    subItems: Option<seq<SubItem>>,
    disabled: bool)

  /** The open submenu: a menu and an item position in it. */
  datatype OpenSubmenu = OpenSubmenu(menuType: MenuType, index: int)

  /** The main menu as shipped: four links, none with a submenu, the
      task list disabled. */
  const NavItems: seq<NavItem> := [
    NavItem("Copilot", Some("/"), None, false),
    NavItem("Workflows", Some("/workflows"), None, false),
    NavItem("Tareas - WIP", Some("/tasks"), None, true),
    NavItem("Tu Cartera", Some("/your-portfolio"), None, false)
  ]

  /** The second menu as shipped: empty. */
  const OthersItems: seq<NavItem> := []

  /** `isActive`: a path is active when it is exactly the current one. */
  predicate IsActive(pathname: string, path: string)
  {
    pathname == path
  }

  /** No two links of the shown main menu are active at once. */
  lemma AtMostOneActiveLink(pathname: string)
    ensures forall i, j :: 0 <= i < j < |NavItems| && NavItems[i].path.Some? && NavItems[j].path.Some?
                             && IsActive(pathname, NavItems[i].path.value) ==>
                               !IsActive(pathname, NavItems[j].path.value)
  {
  }

  /** The updater of `handleSubmenuToggle`: the open pair closes, any other
      pair opens in place of whatever was open. */
  function Toggle(prev: Option<OpenSubmenu>, index: int, menuType: MenuType): (r: Option<OpenSubmenu>)
    ensures r.None? <==> prev == Some(OpenSubmenu(menuType, index))
    ensures r.Some? ==> r.value == OpenSubmenu(menuType, index)
  {
    if prev.Some? && prev.value.menuType == menuType && prev.value.index == index then None
    else Some(OpenSubmenu(menuType, index))
  }

  /** Toggling the same pair twice closes everything, unless that pair was
      the one open, which then ends up open again. */
  lemma ToggleTwice(prev: Option<OpenSubmenu>, index: int, menuType: MenuType)
    ensures Toggle(Toggle(prev, index, menuType), index, menuType)
            == if prev == Some(OpenSubmenu(menuType, index)) then prev else None
  {
  }

  /** A parent's button: a disabled parent ignores the click. */
  function ParentClick(item: NavItem, prev: Option<OpenSubmenu>, index: int, menuType: MenuType): (r: Option<OpenSubmenu>)
    ensures item.disabled ==> r == prev
    ensures !item.disabled ==> r == Toggle(prev, index, menuType)
  {
    if item.disabled then prev else Toggle(prev, index, menuType)
  }

  /** A submenu is drawn expanded when it is the open one and its parent
      is not disabled. */
  predicate SubmenuExpanded(open: Option<OpenSubmenu>, menuType: MenuType, index: int, item: NavItem)
  {
    open == Some(OpenSubmenu(menuType, index)) && !item.disabled
  }

  /** Clicking a disabled parent neither opens nor closes its submenu. */
  lemma DisabledParentStaysClosed(item: NavItem, prev: Option<OpenSubmenu>, index: int, menuType: MenuType)
    requires item.disabled
    ensures ParentClick(item, prev, index, menuType) == prev
    ensures !SubmenuExpanded(ParentClick(item, prev, index, menuType), menuType, index, item)
  {
  }

  /** Whether one of the item's sub-items is the current page. */
  predicate HasActiveSub(item: NavItem, pathname: string)
  {
    item.subItems.Some? && AnyActive(item.subItems.value, pathname)
  }

  predicate AnyActive(subItems: seq<SubItem>, pathname: string)
  {
    exists k :: 0 <= k < |subItems| && IsActive(pathname, subItems[k].path)
  }

  /** Extending the scanned sub-items by one. */
  lemma AnyActiveStep(subItems: seq<SubItem>, j: nat, pathname: string)
    requires j < |subItems|
    ensures AnyActive(subItems[..j + 1], pathname)
            <==> AnyActive(subItems[..j], pathname) || IsActive(pathname, subItems[j].path)
  {
    if AnyActive(subItems[..j + 1], pathname) && !IsActive(pathname, subItems[j].path) {
      var k :| 0 <= k < j + 1 && IsActive(pathname, subItems[..j + 1][k].path);
      assert subItems[..j][k] == subItems[k];
    }
    if AnyActive(subItems[..j], pathname) {
      var k :| 0 <= k < j && IsActive(pathname, subItems[..j][k].path);
      assert subItems[..j + 1][k] == subItems[k];
    }
    if IsActive(pathname, subItems[j].path) {
      assert subItems[..j + 1][j] == subItems[j];
    }
  }

  /** The position of the last item holding the current page. */
  function LastMatch(items: seq<NavItem>, pathname: string): (r: Option<nat>)
    ensures r.Some? ==> r.value < |items| && HasActiveSub(items[r.value], pathname)
    ensures r.Some? ==> forall k :: r.value < k < |items| ==> !HasActiveSub(items[k], pathname)
    ensures r.None? ==> forall k :: 0 <= k < |items| ==> !HasActiveSub(items[k], pathname)
  {
    if |items| == 0 then None
    else if HasActiveSub(items[|items| - 1], pathname) then Some(|items| - 1)
    else LastMatch(items[..|items| - 1], pathname)
  }

  /** Extending the scanned prefix by one item: that item is the new last
      match when it holds the current page. */
  lemma LastMatchStep(items: seq<NavItem>, index: nat, pathname: string)
    requires index < |items|
    ensures LastMatch(items[..index + 1], pathname)
            == if HasActiveSub(items[index], pathname) then Some(index) else LastMatch(items[..index], pathname)
  {
    assert items[..index + 1][..index] == items[..index];
  }

  /** One menu's contribution: its last matching item, or what the earlier
      menus produced. */
  function MenuMatch(menuType: MenuType, items: seq<NavItem>, pathname: string, earlier: Option<OpenSubmenu>)
    : Option<OpenSubmenu>
  {
    match LastMatch(items, pathname)
    case Some(k) => Some(OpenSubmenu(menuType, k))
    case None => earlier
  }

  /** Where the route effect leaves the open submenu: on the last item, the
      second menu after the main one, that holds the current page, or on
      nothing when no item holds it. */
  function RouteMatch(main: seq<NavItem>, others: seq<NavItem>, pathname: string): (r: Option<OpenSubmenu>)
    ensures r.None? <==>
              (forall k :: 0 <= k < |main| ==> !HasActiveSub(main[k], pathname)) &&
              (forall k :: 0 <= k < |others| ==> !HasActiveSub(others[k], pathname))
    ensures r.Some? && r.value.menuType == Others ==>
              0 <= r.value.index < |others| && HasActiveSub(others[r.value.index], pathname) &&
              forall k :: r.value.index < k < |others| ==> !HasActiveSub(others[k], pathname)
    ensures r.Some? && r.value.menuType == Main ==>
              (forall k :: 0 <= k < |others| ==> !HasActiveSub(others[k], pathname)) &&
              0 <= r.value.index < |main| && HasActiveSub(main[r.value.index], pathname) &&
              forall k :: r.value.index < k < |main| ==> !HasActiveSub(main[k], pathname)
  {
    MenuMatch(Others, others, pathname, MenuMatch(Main, main, pathname, None))
  }

  /** A menu none of whose items has sub-items never matches. */
  lemma {:induction false} NoSubItemsNoMatch(items: seq<NavItem>, pathname: string)
    requires forall k :: 0 <= k < |items| ==> items[k].subItems.None?
    ensures LastMatch(items, pathname) == None
  {
    if |items| > 0 {
      NoSubItemsNoMatch(items[..|items| - 1], pathname);
    }
  }

  /** With the menus as shipped, no route ever opens a submenu. */
  lemma ShippedMenusNeverOpen(pathname: string)
    ensures RouteMatch(NavItems, OthersItems, pathname) == None
  {
    NoSubItemsNoMatch(NavItems, pathname);
  }

  /** The route effect: walk the main menu, then the other one, each item
      in order and each sub-item in order, opening the item's submenu
      every time a sub-item is the current page; if nothing matched,
      close every submenu. The last write wins, so whatever was open
      before plays no part in the result. */
  method RouteEffect(pathname: string, main: seq<NavItem>, others: seq<NavItem>, prev: Option<OpenSubmenu>)
    returns (openSubmenu: Option<OpenSubmenu>)
    ensures openSubmenu == RouteMatch(main, others, pathname)
  {
    openSubmenu := prev;
    var submenuMatched := false;
    var menuTypes := [Main, Others];
    var t := 0;
    while t < |menuTypes|
      invariant 0 <= t <= 2
      invariant var s := if t == 0 then None
                         else if t == 1 then MenuMatch(Main, main, pathname, None)
                         else RouteMatch(main, others, pathname);
                (submenuMatched <==> s.Some?) && openSubmenu == (if s.Some? then s else prev)
    {
      var menuType := menuTypes[t];
      var items := if menuType == Main then main else others;
      ghost var before, matchedBefore := openSubmenu, submenuMatched;
      var index := 0;
      while index < |items|
        invariant 0 <= index <= |items|
        invariant submenuMatched <==> matchedBefore || LastMatch(items[..index], pathname).Some?
        invariant LastMatch(items[..index], pathname).Some? ==>
                    openSubmenu == Some(OpenSubmenu(menuType, LastMatch(items[..index], pathname).value))
        invariant LastMatch(items[..index], pathname).None? ==> openSubmenu == before
      {
        var nav := items[index];
        ghost var beforeItem, matchedBeforeItem := openSubmenu, submenuMatched;
        if nav.subItems.Some? {
          var subItems := nav.subItems.value;
          var j := 0;
          while j < |subItems|
            invariant 0 <= j <= |subItems|
            invariant AnyActive(subItems[..j], pathname) ==>
                        openSubmenu == Some(OpenSubmenu(menuType, index)) && submenuMatched
            invariant !AnyActive(subItems[..j], pathname) ==>
                        openSubmenu == beforeItem && submenuMatched == matchedBeforeItem
          {
            AnyActiveStep(subItems, j, pathname);
            if IsActive(pathname, subItems[j].path) {
              openSubmenu := Some(OpenSubmenu(menuType, index));
              submenuMatched := true;
            }
            j := j + 1;
          }
          assert subItems[..j] == subItems;
        }
        LastMatchStep(items, index, pathname);
        index := index + 1;
      }
      assert items[..index] == items;
      t := t + 1;
    }
    if !submenuMatched {
      openSubmenu := None;
    }
  }

  /** The sidebar's open-submenu slot over its two menus (`NavItems` and
      `OthersItems` in the shipped application). */
  class Sidebar {
    const main: seq<NavItem>
    const others: seq<NavItem>
    var openSubmenu: Option<OpenSubmenu>

    constructor (main: seq<NavItem>, others: seq<NavItem>)
      ensures this.main == main && this.others == others
      ensures openSubmenu == None
    {
      this.main := main;
      this.others := others;
      openSubmenu := None;
    }

    function Items(menuType: MenuType): seq<NavItem>
      reads this
    {
      if menuType == Main then main else others
    }

    /** The effect that runs on every change of route. */
    method LocationChanged(pathname: string)
      modifies this
      ensures openSubmenu == RouteMatch(main, others, pathname)
    {
      openSubmenu := RouteEffect(pathname, main, others, openSubmenu);
    }

    /** A click on the button of a parent item; only parents with
        sub-items have one. */
    method ClickParent(menuType: MenuType, index: nat)
      requires index < |Items(menuType)| && Items(menuType)[index].subItems.Some?
      modifies this
      ensures openSubmenu == ParentClick(Items(menuType)[index], old(openSubmenu), index, menuType)
    {
      var nav := Items(menuType)[index];
      if !nav.disabled {
        openSubmenu := Toggle(openSubmenu, index, menuType);
      }
    }
  }

  /** The shipped sidebar keeps every submenu closed, whatever the route. */
  method ShippedSidebarStaysClosed(pathname: string) returns (open: Option<OpenSubmenu>)
    ensures open == None
  {
    var sidebar := new Sidebar(NavItems, OthersItems);
    sidebar.LocationChanged(pathname);
    ShippedMenusNeverOpen(pathname);
    open := sidebar.openSubmenu;
  }
}
