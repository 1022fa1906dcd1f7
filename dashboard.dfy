/** The dashboard page: which screen it renders for the signed-in user and its
    own view state, the view handlers, the pathname effect and the statistics
    loader. */
module Dashboard {
  import opened Http
  import opened AuthContext

  datatype View = DashboardView | ChurchDetailsView | ProfileView | ManageEventsView | ManageAnnouncementsView

  /** What the page renders. `Main` carries the first assignment, which the
      welcome header names (`None` when the user has none). */
  datatype Screen =
    | Superuser
    | ChurchDetails(churchId: int)
    | ManageEvents
    | ManageAnnouncements
    | Profile
    | EnrollmentPending
    | ChurchEnrollment
    | Main(first: Option<Assignment>)

  predicate IsSuperuser(user: Option<User>) {
    user.Some? && user.value.role == "superuser"
  }

  predicate IsChurchAdmin(user: Option<User>) {
    user.Some? && user.value.role == "church_admin"
  }

  /** `user?.churchAssignments && user.churchAssignments.length > 0` */
  predicate HasAssignments(user: Option<User>) {
    user.Some? && user.value.churchAssignments.Some? && |user.value.churchAssignments.value| > 0
  }

  function FirstAssignment(user: Option<User>): (a: Option<Assignment>)
    ensures a.Some? <==> HasAssignments(user)
  {
    if HasAssignments(user) then Some(user.value.churchAssignments.value[0]) else None
  }

  /** `user?.churchAssignments?.[0]?.church_id` when it is truthy (not 0). */
  function FirstChurchId(user: Option<User>): (id: Option<int>)
    ensures id.Some? ==> id.value != 0 && HasAssignments(user)
    ensures id.Some? <==> HasAssignments(user) && FirstAssignment(user).value.churchId != 0
  {
    match FirstAssignment(user)
    case Some(a) => if a.churchId != 0 then Some(a.churchId) else None
    case None => None
  }

  /** `user?.enrollment_status || 'none'` */
  function EnrollmentStatus(user: Option<User>): string {
    if user.Some? && user.value.enrollmentStatus != "" then user.value.enrollmentStatus else "none"
  }

  /** `selectedChurchId` is truthy: set, and not 0. */
  predicate Selected(selectedChurchId: Option<int>) {
    selectedChurchId.Some? && selectedChurchId.value != 0
  }

  /** The chain of early returns in the component body, in source order. */
  function Select(user: Option<User>, view: View, selectedChurchId: Option<int>): (s: Screen)
    ensures IsSuperuser(user) ==> s == Superuser
    ensures s.ChurchDetails? <==> !IsSuperuser(user) && view == ChurchDetailsView && Selected(selectedChurchId)
    ensures s.ChurchDetails? ==> s.churchId == selectedChurchId.value
    ensures !IsSuperuser(user) && view == ManageEventsView ==> s == ManageEvents
    ensures !IsSuperuser(user) && view == ManageAnnouncementsView ==> s == ManageAnnouncements
    ensures !IsSuperuser(user) && view == ProfileView ==> s == Profile
    ensures s.EnrollmentPending? || s.ChurchEnrollment? ==> IsChurchAdmin(user) && !HasAssignments(user)
    ensures s.Main? ==> s.first == FirstAssignment(user)
  {
    if IsSuperuser(user) then Superuser
    else if view == ChurchDetailsView && Selected(selectedChurchId) then ChurchDetails(selectedChurchId.value)
    else if view == ManageEventsView then ManageEvents
    else if view == ManageAnnouncementsView then ManageAnnouncements
    else if view == ProfileView then Profile
    else if IsChurchAdmin(user) && EnrollmentStatus(user) == "pending" && !HasAssignments(user) then EnrollmentPending
    else if IsChurchAdmin(user) && !HasAssignments(user) then ChurchEnrollment
    else Main(FirstAssignment(user))
  }

  /** The views that are not page-level choices: the dashboard itself, and the
      church-details view with no usable church. */
  predicate HomeView(view: View, selectedChurchId: Option<int>) {
    view == DashboardView || (view == ChurchDetailsView && !Selected(selectedChurchId))
  }

  /** On the home views a non-superuser's screen depends only on role,
      enrollment status and assignments: a pending church admin without
      churches waits, one with another status (a missing one counts as
      'none') enrols, and everybody else gets the main dashboard. */
  lemma {:induction false} HomeScreen(user: Option<User>, view: View, selectedChurchId: Option<int>)
    requires !IsSuperuser(user) && HomeView(view, selectedChurchId)
    ensures Select(user, view, selectedChurchId) ==
      if IsChurchAdmin(user) && !HasAssignments(user) then
        (if user.value.enrollmentStatus == "pending" then EnrollmentPending else ChurchEnrollment)
      else Main(FirstAssignment(user))
  {
    if IsChurchAdmin(user) && !HasAssignments(user) {
      assert EnrollmentStatus(user) == "pending" <==> user.value.enrollmentStatus == "pending";
    }
  }

  /** The church in the header: `church_id || 0`. */
  function HeaderChurchId(user: Option<User>): (id: int)
    ensures id == 0 <==> FirstChurchId(user).None?
  {
    match FirstChurchId(user)
    case Some(id) => id
    case None => 0
  }

  /** A user ends up with the details screen after a header click exactly when
      the first assignment names a church: the fallback id 0 never shows details. */
  lemma HeaderClickShowsDetails(user: Option<User>)
    requires !IsSuperuser(user)
    ensures Select(user, ChurchDetailsView, Some(HeaderChurchId(user))).ChurchDetails?
      <==> FirstChurchId(user).Some?
  {
  }

  /** The view the pathname effect installs: `/profile` and `/dashboard` pick
      their views, any other path keeps the current one. */
  function ViewForPath(path: string, current: View): (v: View)
    ensures path == "/profile" ==> v == ProfileView
    ensures path == "/dashboard" ==> v == DashboardView
    ensures path != "/profile" && path != "/dashboard" ==> v == current
  {
    if path == "/profile" then ProfileView
    else if path == "/dashboard" then DashboardView
    else current
  }

  /** What the stats requests return: the length of the array read. */
  type Count = nat

  class DashboardPage {
    var currentView: View
    var selectedChurchId: Option<int>
    var statsLoading: bool
    var eventCount: nat
    var announcementCount: nat

    constructor ()
      ensures currentView == DashboardView && selectedChurchId == None
      ensures statsLoading && eventCount == 0 && announcementCount == 0
    {
      currentView, selectedChurchId := DashboardView, None;
      statsLoading, eventCount, announcementCount := true, 0, 0;
    }

    /** The effect on `location.pathname`. */
    method OnPathname(path: string)
      modifies this
      ensures currentView == ViewForPath(path, old(currentView))
      ensures selectedChurchId == old(selectedChurchId)
      ensures statsLoading == old(statsLoading) && eventCount == old(eventCount)
      ensures announcementCount == old(announcementCount)
    {
      if path == "/profile" {
        currentView := ProfileView;
      } else if path == "/dashboard" {
        currentView := DashboardView;
      }
    }

    method HandleChurchClick(churchId: int)
      modifies this
      ensures currentView == ChurchDetailsView && selectedChurchId == Some(churchId)
      ensures statsLoading == old(statsLoading) && eventCount == old(eventCount)
      ensures announcementCount == old(announcementCount)
    {
      selectedChurchId := Some(churchId);
      currentView := ChurchDetailsView;
    }

    /** Back to the dashboard; the result is the path navigated to. */
    method HandleBackToDashboard() returns (navigateTo: string)
      modifies this
      ensures currentView == DashboardView && selectedChurchId == None
      ensures navigateTo == "/dashboard"
      ensures statsLoading == old(statsLoading) && eventCount == old(eventCount)
      ensures announcementCount == old(announcementCount)
    {
      currentView := DashboardView;
      selectedChurchId := None;
      navigateTo := "/dashboard";
    }

    method HandleManageEvents()
      modifies this
      ensures currentView == ManageEventsView && selectedChurchId == old(selectedChurchId)
      ensures statsLoading == old(statsLoading) && eventCount == old(eventCount)
      ensures announcementCount == old(announcementCount)
    {
      currentView := ManageEventsView;
    }

    method HandleManageAnnouncements()
      modifies this
      ensures currentView == ManageAnnouncementsView && selectedChurchId == old(selectedChurchId)
      ensures statsLoading == old(statsLoading) && eventCount == old(eventCount)
      ensures announcementCount == old(announcementCount)
    {
      currentView := ManageAnnouncementsView;
    }

    /** `handleEventCreated(shouldShowChurch)`: the first assignment's church
      when asked for and known, else the dashboard. */
    method HandleEventCreated(user: Option<User>, shouldShowChurch: bool)
      modifies this
      ensures shouldShowChurch && FirstChurchId(user).Some? ==>
        currentView == ChurchDetailsView && selectedChurchId == FirstChurchId(user)
      ensures !(shouldShowChurch && FirstChurchId(user).Some?) ==>
        currentView == DashboardView && selectedChurchId == old(selectedChurchId)
      ensures statsLoading == old(statsLoading) && eventCount == old(eventCount)
      ensures announcementCount == old(announcementCount)
    {
      var id := FirstChurchId(user);
      if shouldShowChurch && id.Some? {
        selectedChurchId := id;
        currentView := ChurchDetailsView;
      } else {
        currentView := DashboardView;
      }
    }

    /** `loadStats`: nothing without a first church; otherwise each OK reply
      sets its counter, a request that throws ends the loading early (the
      announcements request is then never made), and loading ends false. */
    method LoadStats(user: Option<User>, events: Reply<Count>, announcements: Reply<Count>)
      modifies this
      ensures currentView == old(currentView) && selectedChurchId == old(selectedChurchId)
      ensures FirstChurchId(user).None? ==>
        statsLoading == old(statsLoading) && eventCount == old(eventCount)
        && announcementCount == old(announcementCount)
      ensures FirstChurchId(user).Some? ==>
        && !statsLoading
        && eventCount == (if events.Responded? && events.ok then events.body else old(eventCount))
        && announcementCount ==
             (if events.Responded? && announcements.Responded? && announcements.ok then announcements.body
              else old(announcementCount))
    {
      if FirstChurchId(user).None? {
        return;
      }
      statsLoading := true;
      match events {
        case Threw =>
        case Responded(ok, _, n) =>
          if ok {
            eventCount := n;
          }
          match announcements {
            case Threw =>
            case Responded(ok2, _, m) =>
              if ok2 {
                announcementCount := m;
              }
          }
      }
      statsLoading := false;
    }

    /** The screen rendered for `user` in the current state. */
    function Rendered(user: Option<User>): Screen
      reads this
    {
      Select(user, currentView, selectedChurchId)
    }
  }
}
