/**
 * The application sidebar: which menu entries a user's roles let them see, which
 * submenu is open, and how navigation opens the submenu holding the current page.
 */
module Sidebar {
  import opened Wrappers
  import opened Seqs

  /** A submenu entry; `roles` absent means every signed-in user may see it. */
  datatype SubItem = SubItem(name: string, path: string, roles: Option<seq<string>>)

  /** A top-level entry, with a path or a list of submenu entries. */
  datatype NavItem = NavItem(
    name: string,
    path: Option<string>,
    roles: Option<seq<string>>,
    subItems: Option<seq<SubItem>>)

  /** The "Others" section; it has no entries. */
  const OthersItems: seq<NavItem> := []

  // ---------------------------------------------------------------- access

  /** `a.some(x => b.includes(x))`. */
  function SomeIncluded(a: seq<string>, b: seq<string>): (r: bool)
    ensures r <==> exists i :: 0 <= i < |a| && a[i] in b
  {
    if a == [] then false
    else if a[0] in b then true
    else
      var r := SomeIncluded(a[1..], b);
      assert forall i :: 1 <= i < |a| ==> a[i] == a[1..][i - 1];
      r
  }

  /**
   * `hasAccess`. `userRoles` is the signed-in user's role list; `None` stands for no user,
   * a user without roles, and a role field that is not a list.
   */
  function HasAccess(itemRoles: Option<seq<string>>, userRoles: Option<seq<string>>): (r: bool)
    ensures itemRoles.None? || |itemRoles.value| == 0 ==> r
    ensures itemRoles.Some? && |itemRoles.value| > 0 && userRoles.None? ==> !r
    ensures itemRoles.Some? && |itemRoles.value| > 0 && userRoles.Some? ==>
              (r <==> exists i, j :: 0 <= i < |userRoles.value| && 0 <= j < |itemRoles.value| &&
                                     userRoles.value[i] == itemRoles.value[j])
  {
    if itemRoles.None? || |itemRoles.value| == 0 then true
    else if userRoles.None? then false
    else SomeIncluded(userRoles.value, itemRoles.value)
  }

  /** Access depends only on which roles a user holds, not on their order or repetition. */
  lemma AccessBySharedRoles(itemRoles: Option<seq<string>>, a: seq<string>, b: seq<string>)
    requires forall x :: x in a <==> x in b
    ensures HasAccess(itemRoles, Some(a)) == HasAccess(itemRoles, Some(b))
  {
    if itemRoles.Some? && |itemRoles.value| > 0 {
      var req := itemRoles.value;
      if HasAccess(itemRoles, Some(a)) {
        var i, j :| 0 <= i < |a| && 0 <= j < |req| && a[i] == req[j];
        assert a[i] in b;
        var k :| 0 <= k < |b| && b[k] == a[i];
        assert b[k] == req[j];
      }
      if HasAccess(itemRoles, Some(b)) {
        var i, j :| 0 <= i < |b| && 0 <= j < |req| && b[i] == req[j];
        assert b[i] in a;
        var k :| 0 <= k < |a| && a[k] == b[i];
        assert a[k] == req[j];
      }
    }
  }

  // ---------------------------------------------------------------- menu filtering

  /** The entry filter: the entry's own roles admit the user. */
  function ItemAccess(userRoles: Option<seq<string>>): NavItem -> bool
  {
    (item: NavItem) => HasAccess(item.roles, userRoles)
  }

  /** The submenu filter. */
  function SubAccess(userRoles: Option<seq<string>>): SubItem -> bool
  {
    (sub: SubItem) => HasAccess(sub.roles, userRoles)
  }

  /** An entry with its submenu, if any, cut down to what the user may see. */
  function Prune(userRoles: Option<seq<string>>): NavItem -> NavItem
  {
    (item: NavItem) => item.(subItems := match item.subItems
                              case None => None
                              case Some(subs) => Some(Filter(subs, SubAccess(userRoles))))
  }

  /** Entries without a submenu, or with a non-empty one. */
  predicate NotEmptied(item: NavItem)
  {
    item.subItems.None? || |item.subItems.value| > 0
  }

  /** The filtered menu: accessible entries, their submenus filtered, emptied submenus dropped. */
  function FilterMenu(items: seq<NavItem>, userRoles: Option<seq<string>>): seq<NavItem>
  {
    Filter(Map(Filter(items, ItemAccess(userRoles)), Prune(userRoles)), NotEmptied)
  }

  /** The entries the filtered menu keeps, before pruning. */
  function Shown(userRoles: Option<seq<string>>): NavItem -> bool
  {
    (item: NavItem) => HasAccess(item.roles, userRoles) && NotEmptied(Prune(userRoles)(item))
  }

  /** Filtering after a map is mapping after a filter through the map. */
  lemma {:induction false} FilterAfterMap<T, U>(s: seq<T>, f: T -> U, q: U -> bool, pq: T -> bool)
    requires forall x :: pq(x) == q(f(x))
    ensures Filter(Map(s, f), q) == Map(Filter(s, pq), f)
  {
    if s != [] {
      FilterAfterMap(s[1..], f, q, pq);
      assert Map(s, f) == [f(s[0])] + Map(s[1..], f);
      assert Map(s, f)[1..] == Map(s[1..], f);
      if pq(s[0]) {
        assert Filter(s, pq) == [s[0]] + Filter(s[1..], pq);
        assert Map(Filter(s, pq), f) == [f(s[0])] + Map(Filter(s[1..], pq), f);
      }
    }
  }

  /**
   * The filtered menu is, in order, the pruned form of the entries whose roles admit the
   * user and whose submenu keeps something.
   */
  lemma FilterMenuIsPrunedSubsequence(items: seq<NavItem>, userRoles: Option<seq<string>>)
    ensures FilterMenu(items, userRoles) == Map(Filter(items, Shown(userRoles)), Prune(userRoles))
  {
    var access, prune := ItemAccess(userRoles), Prune(userRoles);
    var kept := Filter(items, access);
    var second := x => NotEmptied(prune(x));
    FilterAfterMap(kept, prune, NotEmptied, second);
    FilterCompose(items, access, second, Shown(userRoles));
  }

  /** Every entry of the filtered menu admits the user, as does every submenu entry it keeps, and no kept submenu is empty. */
  lemma FilteredMenuAccessible(items: seq<NavItem>, userRoles: Option<seq<string>>)
    ensures forall item :: item in FilterMenu(items, userRoles) ==>
              HasAccess(item.roles, userRoles) &&
              NotEmptied(item) &&
              (item.subItems.Some? ==> forall sub :: sub in item.subItems.value ==> HasAccess(sub.roles, userRoles))
  {
    FilterMenuIsPrunedSubsequence(items, userRoles);
    var shown := Filter(items, Shown(userRoles));
    forall item | item in FilterMenu(items, userRoles)
      ensures HasAccess(item.roles, userRoles) && NotEmptied(item)
      ensures item.subItems.Some? ==> forall sub :: sub in item.subItems.value ==> HasAccess(sub.roles, userRoles)
    {
      var i :| 0 <= i < |shown| && item == Prune(userRoles)(shown[i]);
      FilterMember(items, Shown(userRoles), shown[i]);
      if item.subItems.Some? {
        forall sub | sub in item.subItems.value ensures HasAccess(sub.roles, userRoles) {
          FilterMember(shown[i].subItems.value, SubAccess(userRoles), sub);
        }
      }
    }
  }

  /** An accessible entry without a submenu is kept as it is. */
  lemma PlainEntryKept(items: seq<NavItem>, userRoles: Option<seq<string>>, item: NavItem)
    requires item in items && item.subItems.None? && HasAccess(item.roles, userRoles)
    ensures item in FilterMenu(items, userRoles)
  {
    FilterMenuIsPrunedSubsequence(items, userRoles);
    FilterMember(items, Shown(userRoles), item);
    var shown := Filter(items, Shown(userRoles));
    var i :| 0 <= i < |shown| && shown[i] == item;
    assert Map(shown, Prune(userRoles))[i] == item;
  }

  /** The "Others" section is shown only when its filtered list is non-empty, so never. */
  predicate ShowsOthers(filteredOthers: seq<NavItem>)
  {
    |filteredOthers| > 0
  }

  lemma OthersSectionHidden(userRoles: Option<seq<string>>)
    ensures !ShowsOthers(FilterMenu(OthersItems, userRoles))
  {
  }

  // ---------------------------------------------------------------- open submenu

  datatype MenuType = Main | Others

  /** An open submenu: which section and which entry of the filtered list. */
  datatype OpenSubmenu = OpenSubmenu(menu: MenuType, index: int)

  /** `handleSubmenuToggle`: the open submenu closes, any other opens. */
  function Toggled(prev: Option<OpenSubmenu>, index: int, menu: MenuType): (r: Option<OpenSubmenu>)
    ensures prev == Some(OpenSubmenu(menu, index)) ==> r.None?
    ensures prev != Some(OpenSubmenu(menu, index)) ==> r == Some(OpenSubmenu(menu, index))
  {
    if prev.Some? && prev.value.menu == menu && prev.value.index == index then None
    else Some(OpenSubmenu(menu, index))
  }

  /** Toggling the same entry twice from closed, or from that entry open, returns to the start. */
  lemma ToggleTwice(prev: Option<OpenSubmenu>, index: int, menu: MenuType)
    requires prev.None? || prev == Some(OpenSubmenu(menu, index))
    ensures Toggled(Toggled(prev, index, menu), index, menu) == prev
  {
  }

  /** `isActive`: a path is active when it is exactly the current pathname. */
  predicate IsActive(path: string, pathname: string)
  {
    path == pathname
  }

  /** Some submenu entry of `item` is the current page. */
  predicate HasActiveSub(item: NavItem, pathname: string)
  {
    item.subItems.Some? &&
    exists j :: 0 <= j < |item.subItems.value| && IsActive(item.subItems.value[j].path, pathname)
  }

  /** The last entry of a menu whose submenu holds the current page. */
  function LastMatch(items: seq<NavItem>, pathname: string): (r: Option<nat>)
    ensures r.Some? ==> r.value < |items| && HasActiveSub(items[r.value], pathname)
    ensures r.Some? ==> forall k :: r.value < k < |items| ==> !HasActiveSub(items[k], pathname)
    ensures r.None? <==> forall k :: 0 <= k < |items| ==> !HasActiveSub(items[k], pathname)
  {
    if items == [] then None
    else if HasActiveSub(items[|items| - 1], pathname) then Some(|items| - 1)
    else
      var r := LastMatch(items[..|items| - 1], pathname);
      assert forall k :: 0 <= k < |items| - 1 ==> items[..|items| - 1][k] == items[k];
      r
  }

  /** The submenu the navigation effect leaves open: the last match, "others" after "main"; none without a match. */
  function AutoOpenTarget(main: seq<NavItem>, others: seq<NavItem>, pathname: string): Option<OpenSubmenu>
  {
    var o := LastMatch(others, pathname);
    var m := LastMatch(main, pathname);
    if o.Some? then Some(OpenSubmenu(Others, o.value))
    else if m.Some? then Some(OpenSubmenu(Main, m.value))
    else None
  }

  /** The last match of a one-longer prefix. */
  lemma LastMatchStep(items: seq<NavItem>, i: nat, pathname: string)
    requires i < |items|
    ensures LastMatch(items[..i + 1], pathname) ==
              if HasActiveSub(items[i], pathname) then Some(i) else LastMatch(items[..i], pathname)
  {
    assert items[..i + 1][..i] == items[..i];
  }

  /** The navigation effect opens a submenu exactly when some visible submenu entry is the current page. */
  lemma AutoOpenIffActive(main: seq<NavItem>, others: seq<NavItem>, pathname: string)
    ensures AutoOpenTarget(main, others, pathname).Some? <==>
              (exists k :: 0 <= k < |main| && HasActiveSub(main[k], pathname)) ||
              (exists k :: 0 <= k < |others| && HasActiveSub(others[k], pathname))
  {
  }

  /** The open submenu. */
  class SidebarState {
    var openSubmenu: Option<OpenSubmenu>

    constructor ()
      ensures openSubmenu.None?
    {
      openSubmenu := None;
    }

    /** `handleSubmenuToggle`. */
    method Toggle(index: int, menu: MenuType)
      modifies this
      ensures openSubmenu == Toggled(old(openSubmenu), index, menu)
    {
      if openSubmenu.Some? && openSubmenu.value.menu == menu && openSubmenu.value.index == index {
        openSubmenu := None;
      } else {
        openSubmenu := Some(OpenSubmenu(menu, index));
      }
    }

    /** The inner `forEach` over one entry's submenu: each active entry opens this entry's submenu. */
    method ScanSubItems(subs: seq<SubItem>, menu: MenuType, index: nat, pathname: string) returns (hit: bool)
      modifies this
      ensures hit <==> exists j :: 0 <= j < |subs| && IsActive(subs[j].path, pathname)
      ensures openSubmenu == if hit then Some(OpenSubmenu(menu, index)) else old(openSubmenu)
    {
      hit := false;
      var j := 0;
      while j < |subs|
        invariant 0 <= j <= |subs|
        invariant hit <==> exists k :: 0 <= k < j && IsActive(subs[k].path, pathname)
        invariant openSubmenu == if hit then Some(OpenSubmenu(menu, index)) else old(openSubmenu)
      {
        if IsActive(subs[j].path, pathname) {
          openSubmenu := Some(OpenSubmenu(menu, index));
          hit := true;
        }
        j := j + 1;
      }
    }

    /** The middle `forEach` over one section's entries. */
    method ScanMenu(items: seq<NavItem>, menu: MenuType, pathname: string) returns (matched: bool)
      modifies this
      ensures matched <==> LastMatch(items, pathname).Some?
      ensures var m := LastMatch(items, pathname);
              openSubmenu == if m.Some? then Some(OpenSubmenu(menu, m.value)) else old(openSubmenu)
    {
      matched := false;
      var i := 0;
      while i < |items|
        invariant 0 <= i <= |items|
        invariant matched <==> LastMatch(items[..i], pathname).Some?
        invariant var m := LastMatch(items[..i], pathname);
                  openSubmenu == if m.Some? then Some(OpenSubmenu(menu, m.value)) else old(openSubmenu)
      {
        LastMatchStep(items, i, pathname);
        if items[i].subItems.Some? {
          var hit := ScanSubItems(items[i].subItems.value, menu, i, pathname);
          matched := matched || hit;
        }
        i := i + 1;
      }
      assert items[..|items|] == items;
    }

    /** The navigation effect: scan "main" then "others", and close everything when nothing matched. */
    method AutoOpen(main: seq<NavItem>, others: seq<NavItem>, pathname: string)
      modifies this
      ensures openSubmenu == AutoOpenTarget(main, others, pathname)
    {
      var inMain := ScanMenu(main, Main, pathname);
      var inOthers := ScanMenu(others, Others, pathname);
      if !(inMain || inOthers) {
        openSubmenu := None;
      }
    }
  }
}
