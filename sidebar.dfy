/** The side navigation: the six entries with the roles each is shown to,
    and the entries the signed-in user sees. */
module Sidebar {
  import opened Optional
  import opened Lists
  import opened Accounts

  datatype NavItem = NavItem(name: string, href: string, roles: seq<Role>)

  const DashboardItem := NavItem("Dashboard", "/dashboard", [ADMIN, PHARMACIST, STAFF])
  const MedicinesItem := NavItem("Medicines", "/medicines", [ADMIN, PHARMACIST])
  const InventoryItem := NavItem("Inventory", "/inventory", [ADMIN, PHARMACIST, STAFF])
  const ReportsItem := NavItem("Reports", "/reports", [ADMIN])
  const AuditItem := NavItem("Audit Logs", "/audit", [ADMIN, PHARMACIST])
  const UsersItem := NavItem("Users", "/users", [ADMIN])

  const Navigation: seq<NavItem> := [DashboardItem, MedicinesItem, InventoryItem, ReportsItem, AuditItem, UsersItem]

  /** `item.roles.includes(user?.role)`: without a user nothing matches. */
  predicate ShownTo(user: Option<User>, item: NavItem) {
    user.Some? && user.value.role in item.roles
  }

  function ShownToTest(user: Option<User>): NavItem -> bool {
    (item: NavItem) => ShownTo(user, item)
  }

  /** The entries the user sees, in the navigation's order. */
  function VisibleNavigation(user: Option<User>): (r: seq<NavItem>)
    ensures IsSubsequence(r, Navigation)
    ensures forall item :: item in r <==> item in Navigation && ShownTo(user, item)
  {
    Filter(Navigation, ShownToTest(user))
  }

  function IfShown(user: Option<User>, item: NavItem): seq<NavItem> {
    if ShownTo(user, item) then [item] else []
  }

  /** The six entries, each kept or dropped on its own. */
  function EntryByEntry(user: Option<User>): seq<NavItem> {
    IfShown(user, DashboardItem) + (IfShown(user, MedicinesItem) + (IfShown(user, InventoryItem) +
    (IfShown(user, ReportsItem) + (IfShown(user, AuditItem) + IfShown(user, UsersItem)))))
  }

  /** The filter, entry by entry. */
  lemma VisibleNavigationUnrolled(user: Option<User>)
    ensures VisibleNavigation(user) == EntryByEntry(user)
  {
    var t5 := [UsersItem];
    var t4 := [AuditItem] + t5;
    var t3 := [ReportsItem] + t4;
    var t2 := [InventoryItem] + t3;
    var t1 := [MedicinesItem] + t2;
    assert Navigation == [DashboardItem] + t1;
    assert t5 == [UsersItem] + [];
    FilterStep(user, UsersItem, []);
    FilterStep(user, AuditItem, t5);
    FilterStep(user, ReportsItem, t4);
    FilterStep(user, InventoryItem, t3);
    FilterStep(user, MedicinesItem, t2);
    FilterStep(user, DashboardItem, t1);
  }

  lemma FilterStep(user: Option<User>, item: NavItem, rest: seq<NavItem>)
    ensures Filter([item] + rest, ShownToTest(user)) == IfShown(user, item) + Filter(rest, ShownToTest(user))
  {
    FilterCons(item, rest, ShownToTest(user));
  }

  lemma AdminEntries(u: Option<User>)
    requires u.Some? && u.value.role == ADMIN
    ensures EntryByEntry(u) == Navigation
  {
    assert IfShown(u, DashboardItem) == [DashboardItem] && IfShown(u, MedicinesItem) == [MedicinesItem];
    assert IfShown(u, InventoryItem) == [InventoryItem] && IfShown(u, ReportsItem) == [ReportsItem];
    assert IfShown(u, AuditItem) == [AuditItem] && IfShown(u, UsersItem) == [UsersItem];
  }

  /** An administrator sees every entry. */
  lemma AdminSeesEverything(user: User)
    requires user.role == ADMIN
    ensures VisibleNavigation(Some(user)) == Navigation
  {
    VisibleNavigationUnrolled(Some(user));
    AdminEntries(Some(user));
  }

  lemma PharmacistEntries(u: Option<User>)
    requires u.Some? && u.value.role == PHARMACIST
    ensures EntryByEntry(u) == [DashboardItem, MedicinesItem, InventoryItem, AuditItem]
  {
    assert IfShown(u, DashboardItem) == [DashboardItem] && IfShown(u, MedicinesItem) == [MedicinesItem];
    assert IfShown(u, InventoryItem) == [InventoryItem] && IfShown(u, ReportsItem) == [];
    assert IfShown(u, AuditItem) == [AuditItem] && IfShown(u, UsersItem) == [];
  }

  /** A pharmacist sees every entry but Reports and Users. */
  lemma PharmacistNavigation(user: User)
    requires user.role == PHARMACIST
    ensures VisibleNavigation(Some(user)) == [DashboardItem, MedicinesItem, InventoryItem, AuditItem]
  {
    VisibleNavigationUnrolled(Some(user));
    PharmacistEntries(Some(user));
  }

  lemma StaffEntries(u: Option<User>)
    requires u.Some? && u.value.role == STAFF
    ensures EntryByEntry(u) == [DashboardItem, InventoryItem]
  {
    assert IfShown(u, DashboardItem) == [DashboardItem] && IfShown(u, MedicinesItem) == [];
    assert IfShown(u, InventoryItem) == [InventoryItem] && IfShown(u, ReportsItem) == [];
    assert IfShown(u, AuditItem) == [] && IfShown(u, UsersItem) == [];
  }

  /** Staff see Dashboard and Inventory only. */
  lemma StaffNavigation(user: User)
    requires user.role == STAFF
    ensures VisibleNavigation(Some(user)) == [DashboardItem, InventoryItem]
  {
    VisibleNavigationUnrolled(Some(user));
    StaffEntries(Some(user));
  }

  lemma NoEntries(u: Option<User>)
    requires u.None? || !IsKnownRole(u.value.role)
    ensures EntryByEntry(u) == []
  {
    assert IfShown(u, DashboardItem) == [] && IfShown(u, MedicinesItem) == [];
    assert IfShown(u, InventoryItem) == [] && IfShown(u, ReportsItem) == [];
    assert IfShown(u, AuditItem) == [] && IfShown(u, UsersItem) == [];
  }

  /** Without a user, or with a role the console does not know, the
      navigation is empty. */
  lemma NoNavigationForOthers(user: Option<User>)
    requires user.None? || !IsKnownRole(user.value.role)
    ensures VisibleNavigation(user) == []
  {
    VisibleNavigationUnrolled(user);
    NoEntries(user);
  }
}
