/**
 * The global UI store: sidebar and mobile-menu flags, the order filters and
 * the single active modal. Every setter replaces one field and leaves the
 * others as they were; only the sidebar flag is persisted.
 */
module UiStore {
  import opened Wrappers
  import opened Domain

  /** The store's fields as one value. */
  datatype UiState = UiState(
    sidebarCollapsed: bool,
    mobileMenuOpen: bool,
    orderFilters: OrderFilters,
    activeModal: Option<string>)

  /** What survives a page refresh. */
  datatype PersistedUi = PersistedUi(sidebarCollapsed: bool)

  /** The empty filters `{}`. */
  const NoFilters: OrderFilters := OrderFilters(None, None)

  /** The initial state: sidebar open, menu closed, no filters, no modal. */
  const InitialState: UiState := UiState(false, false, NoFilters, None)

  /** `partialize`: only the sidebar flag is kept. */
  function Partialize(s: UiState): (p: PersistedUi)
    ensures p.sidebarCollapsed == s.sidebarCollapsed
  {
    PersistedUi(s.sidebarCollapsed)
  }

  /** Two states that differ only outside the sidebar flag persist the same way. */
  lemma PersistedIgnoresOtherFields(s: UiState, t: UiState)
    requires s.sidebarCollapsed == t.sidebarCollapsed
    ensures Partialize(s) == Partialize(t)
  {
  }

  class UiStore {
    var sidebarCollapsed: bool
    var mobileMenuOpen: bool
    var orderFilters: OrderFilters
    var activeModal: Option<string>

    function State(): UiState
      reads this
    {
      UiState(sidebarCollapsed, mobileMenuOpen, orderFilters, activeModal)
    }

    constructor ()
      ensures State() == InitialState
    {
      sidebarCollapsed := false;
      mobileMenuOpen := false;
      orderFilters := NoFilters;
      activeModal := None;
    }

    method SetSidebarCollapsed(collapsed: bool)
      modifies this
      ensures State() == old(State()).(sidebarCollapsed := collapsed)
    {
      sidebarCollapsed := collapsed;
    }

    /** Flips the sidebar flag only; two toggles give the state back. */
    method ToggleSidebar()
      modifies this
      ensures State() == old(State()).(sidebarCollapsed := !old(sidebarCollapsed))
    {
      sidebarCollapsed := !sidebarCollapsed;
    }

    method SetMobileMenuOpen(open: bool)
      modifies this
      ensures State() == old(State()).(mobileMenuOpen := open)
      ensures Partialize(State()) == old(Partialize(State()))
    {
      mobileMenuOpen := open;
    }

    method ToggleMobileMenu()
      modifies this
      ensures State() == old(State()).(mobileMenuOpen := !old(mobileMenuOpen))
      ensures Partialize(State()) == old(Partialize(State()))
    {
      mobileMenuOpen := !mobileMenuOpen;
    }

    /** The filters are replaced as a whole, not merged. */
    method SetOrderFilters(filters: OrderFilters)
      modifies this
      ensures State() == old(State()).(orderFilters := filters)
      ensures Partialize(State()) == old(Partialize(State()))
    {
      orderFilters := filters;
    }

    method ClearOrderFilters()
      modifies this
      ensures State() == old(State()).(orderFilters := NoFilters)
      ensures Partialize(State()) == old(Partialize(State()))
    {
      orderFilters := NoFilters;
    }

    /** The given modal becomes the one active modal, replacing any other. */
    method OpenModal(modalId: string)
      modifies this
      ensures State() == old(State()).(activeModal := Some(modalId))
      ensures Partialize(State()) == old(Partialize(State()))
    {
      activeModal := Some(modalId);
    }

    method CloseModal()
      modifies this
      ensures State() == old(State()).(activeModal := None)
      ensures Partialize(State()) == old(Partialize(State()))
    {
      activeModal := None;
    }
  }

  /** Toggling the sidebar twice gives back the whole state. */
  method ToggleSidebarTwice(store: UiStore)
    modifies store
    ensures store.State() == old(store.State())
  {
    store.ToggleSidebar();
    store.ToggleSidebar();
  }
}
