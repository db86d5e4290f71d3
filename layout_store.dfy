/** The layout store: two measured sizes and two panel toggles, each field
    overwritten or flipped by its own action. */
module LayoutStore {

  /** A measured element size in CSS pixels. */
  datatype Size = Size(width: real, height: real)

  class LayoutStore {
    var header: Size
    var layout: Size
    var isSidebarOpen: bool
    var isShortcutsModalOpen: bool

    /** The initial state: both sizes zero, the sidebar open, the shortcuts modal closed. */
    constructor ()
      ensures header == Size(0.0, 0.0) && layout == Size(0.0, 0.0)
      ensures isSidebarOpen && !isShortcutsModalOpen
    {
      header := Size(0.0, 0.0);
      layout := Size(0.0, 0.0);
      isSidebarOpen := true;
      isShortcutsModalOpen := false;
    }

    method SetHeaderSize(size: Size)
      modifies this`header
      ensures header == size
    {
      header := size;
    }

    method SetLayoutSize(size: Size)
      modifies this`layout
      ensures layout == size
    {
      layout := size;
    }

    method ToggleSidebar()
      modifies this`isSidebarOpen
      ensures isSidebarOpen == !old(isSidebarOpen)
    {
      isSidebarOpen := !isSidebarOpen;
    }

    method ToggleShortcutsModal()
      modifies this`isShortcutsModalOpen
      ensures isShortcutsModalOpen == !old(isShortcutsModalOpen)
    {
      isShortcutsModalOpen := !isShortcutsModalOpen;
    }
  }

  /** Each toggle is its own inverse: applying both twice leaves the store as it was. */
  method TogglesAreInvolutions(store: LayoutStore)
    modifies store
    ensures unchanged(store)
  {
    store.ToggleSidebar();
    store.ToggleSidebar();
    store.ToggleShortcutsModal();
    store.ToggleShortcutsModal();
  }
}
