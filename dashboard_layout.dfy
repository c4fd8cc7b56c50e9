/** The dashboard shell of the layout directory: the sidebar is closed
    whenever a resize finds a mobile-width window, is never reopened by a
    resize, and the menu button flips it. */
module DashboardLayout {

  const MobileBreakpoint: int := 768

  predicate IsMobileWidth(innerWidth: int)
  {
    innerWidth <= MobileBreakpoint
  }

  /** The layout's state cells. */
  class Layout {
    var isSidebarOpen: bool
    var isMobile: bool

    /** The state's initial values, before the mount effect runs. */
    constructor (innerWidth: int)
      ensures isSidebarOpen && isMobile == IsMobileWidth(innerWidth)
    {
      isSidebarOpen := true;
      isMobile := IsMobileWidth(innerWidth);
    }

    /** `handleResize`, run once on mount and on every window resize. */
    method HandleResize(innerWidth: int)
      modifies this
      ensures isMobile <==> innerWidth <= MobileBreakpoint
      ensures isMobile ==> !isSidebarOpen
      ensures !isMobile ==> isSidebarOpen == old(isSidebarOpen)
    {
      var mobile := IsMobileWidth(innerWidth);
      isMobile := mobile;
      if mobile {
        isSidebarOpen := false;
      }
    }

    /** `toggleSidebar`, the navbar's menu button. */
    method ToggleSidebar()
      modifies this`isSidebarOpen
      ensures isSidebarOpen == !old(isSidebarOpen)
    {
      isSidebarOpen := !isSidebarOpen;
    }
  }

  /** Mounting on a mobile-width window closes the sidebar at once; on a
      wider one it stays open. */
  method Mount(innerWidth: int) returns (layout: Layout)
    ensures fresh(layout)
    ensures layout.isMobile == IsMobileWidth(innerWidth)
    ensures layout.isSidebarOpen <==> !IsMobileWidth(innerWidth)
  {
    layout := new Layout(innerWidth);
    layout.HandleResize(innerWidth);
  }
}
