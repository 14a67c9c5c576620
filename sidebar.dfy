/** The sidebar: its open flag with the toggle, the four navigation
    entries, which one is highlighted for the current path, and when the
    labels are hidden. */
module Sidebar {
  datatype NavItem = NavItem(name: string, path: string)

  const NavItems: seq<NavItem> := [
    NavItem("Dashboard Financiero", "/dashboard/financiero"),
    NavItem("Eficiencia Operativa", "/dashboard/operativo"),
    NavItem("Acciones Ejecutivas", "/acciones"),
    NavItem("Agenda", "/agenda")
  ]

  /** `location.pathname === item.path`. */
  predicate IsActive(pathname: string, item: NavItem)
  {
    pathname == item.path
  }

  /** The entry's colour classes. */
  function ItemClasses(pathname: string, item: NavItem): (cls: string)
    ensures cls == "bg-flota-primary text-black font-semibold" <==> IsActive(pathname, item)
    ensures cls == "text-flota-text hover:bg-black/50" <==> !IsActive(pathname, item)
  {
    if pathname == item.path then "bg-flota-primary text-black font-semibold" else "text-flota-text hover:bg-black/50"
  }

  /** The four paths are distinct, so any path highlights at most one entry,
      and each entry's own path highlights exactly that entry. */
  lemma AtMostOneActive(pathname: string)
    ensures forall i, j :: (0 <= i < |NavItems| && 0 <= j < |NavItems|
                            && IsActive(pathname, NavItems[i]) && IsActive(pathname, NavItems[j])) ==> i == j
    ensures forall k :: 0 <= k < |NavItems| ==>
              forall i :: 0 <= i < |NavItems| ==> (IsActive(NavItems[k].path, NavItems[i]) <==> i == k)
  {
  }

  /** The label's classes (through `cn`): "lg:hidden" is added iff the
      sidebar is closed. */
  function LabelClasses(isOpen: bool): (classes: seq<string>)
    ensures "transition-opacity" in classes
    ensures "lg:hidden" in classes <==> !isOpen
  {
    ["transition-opacity"] + (if !isOpen then ["lg:hidden"] else [])
  }

  /** The open flag. */
  class SidebarState {
    var isOpen: bool

    /** The sidebar starts open. */
    constructor ()
      ensures isOpen
    {
      isOpen := true;
    }

    /** `toggleSidebar`. */
    method ToggleSidebar()
      modifies this
      ensures isOpen == !old(isOpen)
    {
      isOpen := !isOpen;
    }

    /** Whether labels are hidden on large screens. */
    function LabelsHidden(): (hidden: bool)
      reads this
      ensures hidden <==> "lg:hidden" in LabelClasses(isOpen)
    {
      !isOpen
    }
  }
}
