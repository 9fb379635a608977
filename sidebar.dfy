/** The shared sidebar flag (app/composables/useSidebar.ts, state key "sidebar-open"). */
module Sidebar {

  class SidebarState {
    var isOpen: bool

    /** The shared state starts open. */
    constructor()
      ensures isOpen
    {
      isOpen := true;
    }

    method ToggleSidebar()
      modifies this
      ensures isOpen == !old(isOpen)
    {
      isOpen := !isOpen;
    }

    method CloseSidebar()
      modifies this
      ensures !isOpen
    {
      isOpen := false;
    }

    method OpenSidebar()
      modifies this
      ensures isOpen
    {
      isOpen := true;
    }
  }

  /** Toggling twice restores whatever state the sidebar was in. */
  method ToggleTwice(s: SidebarState)
    modifies s
    ensures s.isOpen == old(s.isOpen)
  {
    s.ToggleSidebar();
    s.ToggleSidebar();
  }
}
