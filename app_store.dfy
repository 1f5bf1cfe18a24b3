/**
 * The application's client-side state stores (zustand): authentication, UI,
 * field mode and the admin filters. Each store is an object whose setters
 * replace some of its fields; the field frame of each setter says which.
 */
module AppStore {
  import opened Wrappers

  datatype UserRole = Admin | Office | FieldWorker

  /** `useAuthStore`. */
  class AuthStore {
    var role: Option<UserRole>
    var isAuthenticated: bool

    constructor ()
      ensures role == None && !isAuthenticated
    {
      role, isAuthenticated := None, false;
    }

    /** `login(role)`: role may itself be null. */
    method Login(newRole: Option<UserRole>)
      modifies this
      ensures role == newRole && isAuthenticated
    {
      role, isAuthenticated := newRole, true;
    }

    /** `logout()`: back to the initial state. */
    method Logout()
      modifies this
      ensures role == None && !isAuthenticated
    {
      role, isAuthenticated := None, false;
    }
  }

  datatype SyncStatus = Idle | Syncing | SyncError

  /** `useUIStore`. */
  class UIStore {
    var sidebarOpen: bool
    var isOnline: bool
    var syncStatus: SyncStatus

    /** navigatorOnline is `navigator.onLine`, None where there is no navigator (server rendering). */
    constructor (navigatorOnline: Option<bool>)
      ensures sidebarOpen && syncStatus == Idle
      ensures isOnline == navigatorOnline.GetOr(true)
    {
      sidebarOpen, syncStatus := true, Idle;
      isOnline := navigatorOnline.GetOr(true);
    }

    method ToggleSidebar()
      modifies this`sidebarOpen
      ensures sidebarOpen == !old(sidebarOpen)
    {
      sidebarOpen := !sidebarOpen;
    }

    method SetSidebarOpen(open: bool)
      modifies this`sidebarOpen
      ensures sidebarOpen == open
    {
      sidebarOpen := open;
    }

    method SetOnline(online: bool)
      modifies this`isOnline
      ensures isOnline == online
    {
      isOnline := online;
    }

    method SetSyncStatus(status: SyncStatus)
      modifies this`syncStatus
      ensures syncStatus == status
    {
      syncStatus := status;
    }
  }

  /** Toggling the sidebar twice restores it and touches nothing else. */
  method ToggleSidebarTwice(ui: UIStore)
    modifies ui`sidebarOpen
    ensures ui.sidebarOpen == old(ui.sidebarOpen)
  {
    ui.ToggleSidebar();
    ui.ToggleSidebar();
  }

  /** `useFieldStore`. */
  class FieldStore {
    var currentJobId: Option<string>
    var expandedChecklist: Option<string>

    constructor ()
      ensures currentJobId == None && expandedChecklist == None
    {
      currentJobId, expandedChecklist := None, None;
    }

    method SetCurrentJob(id: Option<string>)
      modifies this`currentJobId
      ensures currentJobId == id
    {
      currentJobId := id;
    }

    method SetExpandedChecklist(id: Option<string>)
      modifies this`expandedChecklist
      ensures expandedChecklist == id
    {
      expandedChecklist := id;
    }
  }

  /** `{ start: Date | null; end: Date | null }`, dates as epoch milliseconds. */
  datatype DateRange = DateRange(start: Option<int>, end: Option<int>)

  /** `useFilterStore`. */
  class FilterStore {
    var jobStageFilter: Option<string>
    var customerTagFilter: Option<string>
    var searchQuery: string
    var dateRange: DateRange

    /** Every filter at its initial value. */
    predicate IsCleared()
      reads this
    {
      jobStageFilter == None && customerTagFilter == None && searchQuery == ""
      && dateRange == DateRange(None, None)
    }

    constructor ()
      ensures IsCleared()
    {
      jobStageFilter, customerTagFilter, searchQuery := None, None, "";
      dateRange := DateRange(None, None);
    }

    method SetJobStageFilter(stage: Option<string>)
      modifies this`jobStageFilter
      ensures jobStageFilter == stage
    {
      jobStageFilter := stage;
    }

    method SetCustomerTagFilter(tag: Option<string>)
      modifies this`customerTagFilter
      ensures customerTagFilter == tag
    {
      customerTagFilter := tag;
    }

    method SetSearchQuery(query: string)
      modifies this`searchQuery
      ensures searchQuery == query
    {
      searchQuery := query;
    }

    method SetDateRange(range: DateRange)
      modifies this`dateRange
      ensures dateRange == range
    {
      dateRange := range;
    }

    /** `clearFilters()`: the resulting state does not depend on the previous one, so clearing twice is clearing once. */
    method ClearFilters()
      modifies this
      ensures IsCleared()
    {
      jobStageFilter, customerTagFilter, searchQuery := None, None, "";
      dateRange := DateRange(None, None);
    }
  }
}
