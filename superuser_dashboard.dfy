/** The superuser's dashboard: the user and church lists, which church admins
    still wait for a church, and the create-admin, assign, and delete actions. */
module SuperuserDashboard {
  import opened Text
  import opened Http
  import opened AuthContext
  import Dashboard

  /** A church as the dashboard lists it. */
  datatype ChurchSummary = ChurchSummary(id: int, name: string, seniorPastor: string, contactEmail: string, createdAt: string)

  /** `xs.filter(p)` */
  function Filter<T(!new)>(xs: seq<T>, p: T -> bool): (r: seq<T>)
    ensures |r| <= |xs|
    ensures forall x :: x in r <==> x in xs && p(x)
  {
    if xs == [] then []
    else (if p(xs[0]) then [xs[0]] else []) + Filter(xs[1..], p)
  }

  /** A church admin with no assignment: missing or empty. */
  predicate IsUnassigned(u: User) {
    u.role == "church_admin" && !Dashboard.HasAssignments(Some(u))
  }

  /** A user of any role with at least one assignment. */
  predicate IsAssigned(u: User) {
    Dashboard.HasAssignments(Some(u))
  }

  /** `getUnassignedUsers` */
  function UnassignedUsers(users: seq<User>): (r: seq<User>)
    ensures forall u :: u in r <==>
      (u in users && u.role == "church_admin" && (u.churchAssignments.None? || u.churchAssignments.value == []))
  {
    Filter(users, IsUnassigned)
  }

  /** `getAssignedUsers` */
  function AssignedUsers(users: seq<User>): (r: seq<User>)
    ensures forall u :: u in r <==> u in users && u.churchAssignments.Some? && u.churchAssignments.value != []
  {
    Filter(users, IsAssigned)
  }

  /** No user is both waiting and assigned; every church admin in the list
      is one or the other; and the two lists together are no longer than the
      users list. */
  lemma {:induction false} AssignedAndUnassignedSplit(users: seq<User>)
    ensures forall u :: !(u in UnassignedUsers(users) && u in AssignedUsers(users))
    ensures forall u :: u in users && u.role == "church_admin" ==> u in UnassignedUsers(users) || u in AssignedUsers(users)
    ensures |UnassignedUsers(users)| + |AssignedUsers(users)| <= |users|
  {
    if users != [] {
      AssignedAndUnassignedSplit(users[1..]);
      assert Filter(users, IsUnassigned) ==
        (if IsUnassigned(users[0]) then [users[0]] else []) + Filter(users[1..], IsUnassigned);
      assert Filter(users, IsAssigned) ==
        (if IsAssigned(users[0]) then [users[0]] else []) + Filter(users[1..], IsAssigned);
    }
  }

  const FillAllFieldsMessage := "Please fill in all required fields"
  const EmailNeedsAtMessage := "Email must contain an @ symbol"

  /** The create-admin precheck: all three fields present (whitespace counts
      as present), then an `@` in the email. */
  function CreateAdminError(email: string, name: string, password: string): (e: Option<string>)
    ensures email == "" || name == "" || password == "" ==> e == Some(FillAllFieldsMessage)
    ensures email != "" && name != "" && password != "" && !Includes(email, '@') ==> e == Some(EmailNeedsAtMessage)
  {
    if email == "" || name == "" || password == "" then Some(FillAllFieldsMessage)
    else if !Includes(email, '@') then Some(EmailNeedsAtMessage)
    else None
  }

  /** The precheck passes exactly for three filled-in fields and an email with an `@`. */
  lemma CreateAdminAccepts(email: string, name: string, password: string)
    ensures CreateAdminError(email, name, password).None? <==>
      email != "" && name != "" && password != "" && exists i :: 0 <= i < |email| && email[i] == '@'
  {
  }

  /** The register request's body. */
  datatype RegisterBody = RegisterBody(email: string, password: string, name: string, role: string)

  /** The lower-cased email of the request still has the `@` the check asked for. */
  lemma LowerCasedEmailKeepsAt(email: string)
    requires Includes(email, '@')
    ensures Includes(ToLower(email), '@')
  {
    var i :| 0 <= i < |email| && email[i] == '@';
    assert ToLower(email)[i] == '@';
  }

  /** `!selectedUserId || !selectedChurchId`: a selection that is missing or 0. */
  predicate Unselected(id: Option<int>) {
    id.None? || id.value == 0
  }

  /** The JSON of a church delete: `removedAssignments` on OK, `error` otherwise. */
  datatype DeleteChurchBody = DeleteChurchBody(removedAssignments: Option<int>, error: string)

  /** The success message of a church delete; a missing count prints as `undefined`. */
  function ChurchDeletedMessage(removed: Option<int>): (m: string)
    ensures StartsWith(m, "Church deleted successfully! ")
  {
    "Church deleted successfully! " + (match removed case Some(n) => IntToString(n) case None => "undefined")
      + " admin assignments were also removed."
  }

  const LoadFailedMessage := "Failed to load data. Please refresh the page."
  const AdminCreatedMessage := "Admin created successfully!"
  const CreateFailedMessage := "Failed to create admin"
  const CreateNetworkMessage := "Network error while creating admin"
  const SelectBothMessage := "Please select both user and church"
  const AssignedMessage := "User assigned to church successfully!"
  const AssignFailedMessage := "Failed to assign user to church"
  const AssignNetworkMessage := "Network error while assigning user"
  const UserDeletedMessage := "User deleted successfully!"
  const DeleteUserFailedMessage := "Failed to delete user"
  const DeleteUserNetworkMessage := "Network error while deleting user"
  const DeleteChurchFailedMessage := "Failed to delete church"
  const DeleteChurchNetworkMessage := "Network error while deleting church"

  /** The full-page spinner shows only while the first load is under way. */
  function ShowsSpinner(loading: bool, users: seq<User>, churches: seq<ChurchSummary>): (shown: bool)
    ensures shown ==> loading
    ensures shown <==> loading && users == [] && churches == []
  {
    loading && |users| == 0 && |churches| == 0
  }

  /** The assign button needs a waiting church admin and a church. */
  function AssignDisabled(users: seq<User>, churches: seq<ChurchSummary>): (disabled: bool)
    ensures !disabled <==> (exists u :: u in users && IsUnassigned(u)) && churches != []
  {
    var waiting := UnassignedUsers(users);
    assert waiting != [] ==> waiting[0] in waiting;
    |waiting| == 0 || |churches| == 0
  }

  /** The dashboard after a register request that passed the precheck: on OK
      the success message, the dialog closed and its inputs reset; otherwise
      the backend's or the network message; loading over either way. */
  function CreateAdminOutcome(s: DashboardState, reply: Reply<ErrorBody>): (t: DashboardState)
    ensures !t.loading
    ensures t.users == s.users && t.churches == s.churches
    ensures reply.Responded? && reply.ok ==>
      t.success == AdminCreatedMessage && !t.createAdminOpen && t.error == s.error
      && t.newAdminEmail == "" && t.newAdminName == "" && t.newAdminPassword == "" && t.newAdminRole == "church_admin"
    ensures !(reply.Responded? && reply.ok) ==>
      t.error != "" && t.success == s.success && t.createAdminOpen == s.createAdminOpen
      && t.newAdminEmail == s.newAdminEmail && t.newAdminName == s.newAdminName
      && t.newAdminPassword == s.newAdminPassword && t.newAdminRole == s.newAdminRole
    ensures reply.Responded? && !reply.ok ==> t.error == Or(reply.body.error, CreateFailedMessage)
    ensures reply.Threw? ==> t.error == CreateNetworkMessage
  {
    match reply
    case Responded(ok, _, body) =>
      if ok then
        s.(success := AdminCreatedMessage, createAdminOpen := false, newAdminEmail := "",
           newAdminName := "", newAdminPassword := "", newAdminRole := "church_admin", loading := false)
      else s.(error := Or(body.error, CreateFailedMessage), loading := false)
    case Threw => s.(error := CreateNetworkMessage, loading := false)
  }

  /** The outcome does not depend on whether loading was already set. */
  lemma CreateAdminOutcomeIgnoresLoading(s: DashboardState, reply: Reply<ErrorBody>)
    ensures CreateAdminOutcome(s.(loading := true), reply) == CreateAdminOutcome(s, reply)
  {
  }

  /** Every state cell of the dashboard. */
  datatype DashboardState = DashboardState(
    users: seq<User>, churches: seq<ChurchSummary>, loading: bool, error: string, success: string,
    createAdminOpen: bool, newAdminEmail: string, newAdminName: string, newAdminPassword: string,
    newAdminRole: string, assignDialogOpen: bool, selectedUserId: Option<int>, selectedChurchId: Option<int>)

  /** The create-admin dialog's inputs. */
  datatype AdminField = AdminEmail | AdminName | AdminPassword | AdminRole

  class SuperuserDashboardPage {
    var users: seq<User>
    var churches: seq<ChurchSummary>
    var loading: bool
    var error: string
    var success: string
    var createAdminOpen: bool
    var newAdminEmail: string
    var newAdminName: string
    var newAdminPassword: string
    var newAdminRole: string
    var assignDialogOpen: bool
    var selectedUserId: Option<int>
    var selectedChurchId: Option<int>

    function State(): DashboardState
      reads this
    {
      DashboardState(users, churches, loading, error, success, createAdminOpen, newAdminEmail,
                     newAdminName, newAdminPassword, newAdminRole, assignDialogOpen,
                     selectedUserId, selectedChurchId)
    }

    constructor ()
      ensures State() == DashboardState([], [], false, "", "", false, "", "", "", "church_admin", false, None, None)
    {
      users, churches := [], [];
      loading, error, success := false, "", "";
      createAdminOpen, newAdminEmail, newAdminName, newAdminPassword := false, "", "", "";
      newAdminRole := "church_admin";
      assignDialogOpen, selectedUserId, selectedChurchId := false, None, None;
    }

    /** `loadData`: users first, then churches. A failure never empties a
        list, but the users may already be replaced when only the churches
        fail; a users failure stops before the churches are asked for. */
    method LoadData(usersReply: Reply<seq<User>>, churchesReply: Reply<seq<ChurchSummary>>)
      modifies this
      ensures var usersOk := usersReply.Responded? && usersReply.ok;
        var churchesOk := usersOk && churchesReply.Responded? && churchesReply.ok;
        State() == old(State()).(
          users := if usersOk then usersReply.body else old(users),
          churches := if churchesOk then churchesReply.body else old(churches),
          error := if churchesOk then "" else LoadFailedMessage,
          loading := false)
    {
      loading := true;
      error := "";
      if usersReply.Responded? && usersReply.ok {
        users := usersReply.body;
        if churchesReply.Responded? && churchesReply.ok {
          churches := churchesReply.body;
        } else {
          error := LoadFailedMessage;
        }
      } else {
        error := LoadFailedMessage;
      }
      loading := false;
    }

    /** A create-admin input's `onChange`. */
    method SetAdminField(f: AdminField, value: string)
      modifies this
      ensures State() == match f
        case AdminEmail => old(State()).(newAdminEmail := value)
        case AdminName => old(State()).(newAdminName := value)
        case AdminPassword => old(State()).(newAdminPassword := value)
        case AdminRole => old(State()).(newAdminRole := value)
    {
      match f {
        case AdminEmail => newAdminEmail := value;
        case AdminName => newAdminName := value;
        case AdminPassword => newAdminPassword := value;
        case AdminRole => newAdminRole := value;
      }
    }

    /** `handleCreateAdmin`: `sent` is the register request's body, `reload`
        whether `loadData` is started afterwards. */
    method HandleCreateAdmin(reply: Reply<ErrorBody>) returns (sent: Option<RegisterBody>, reload: bool)
      modifies this
      ensures var e := CreateAdminError(old(newAdminEmail), old(newAdminName), old(newAdminPassword));
        e.Some? ==> sent.None? && !reload && State() == old(State()).(error := e.value)
      ensures CreateAdminError(old(newAdminEmail), old(newAdminName), old(newAdminPassword)).None? ==>
        && sent == Some(RegisterBody(ToLower(old(newAdminEmail)), old(newAdminPassword), old(newAdminName), old(newAdminRole)))
        && (reload <==> reply.Responded? && reply.ok)
        && State() == CreateAdminOutcome(old(State()), reply)
    {
      var e := CreateAdminError(newAdminEmail, newAdminName, newAdminPassword);
      if e.Some? {
        error := e.value;
        return None, false;
      }
      ghost var before := State();
      loading := true;
      sent := Some(RegisterBody(ToLower(newAdminEmail), newAdminPassword, newAdminName, newAdminRole));
      reload := ApplyCreateReply(reply);
      CreateAdminOutcomeIgnoresLoading(before, reply);
    }

    /** The reply to the register request, once it is under way (lines after
        the `fetch`): `reload` says whether `loadData` is started. */
    method ApplyCreateReply(reply: Reply<ErrorBody>) returns (reload: bool)
      modifies this
      ensures reload <==> reply.Responded? && reply.ok
      ensures State() == CreateAdminOutcome(old(State()), reply)
    {
      reload := false;
      match reply {
        case Responded(ok, _, body) =>
          if ok {
            CloseCreateDialog();
            reload := true;
          } else {
            error := Or(body.error, CreateFailedMessage);
          }
        case Threw =>
          error := CreateNetworkMessage;
      }
      loading := false;
    }

    method SelectUser(id: Option<int>)
      modifies this
      ensures State() == old(State()).(selectedUserId := id)
    {
      selectedUserId := id;
    }

    method SelectChurch(id: Option<int>)
      modifies this
      ensures State() == old(State()).(selectedChurchId := id)
    {
      selectedChurchId := id;
    }

    /** `handleAssignToChurch`. `sent` is the user and church of the request.
        After an OK reply the lists are refreshed quietly: `usersRefresh` and
        `churchesRefresh` answer the two reloads, and a reload that throws
        ends the refresh without an error. */
    method HandleAssignToChurch(reply: Reply<ErrorBody>, usersRefresh: Reply<seq<User>>, churchesRefresh: Reply<seq<ChurchSummary>>)
      returns (sent: Option<(int, int)>)
      modifies this
      ensures Unselected(old(selectedUserId)) || Unselected(old(selectedChurchId)) ==>
        sent.None? && State() == old(State()).(error := SelectBothMessage)
      ensures !Unselected(old(selectedUserId)) && !Unselected(old(selectedChurchId)) ==>
        && sent == Some((old(selectedUserId).value, old(selectedChurchId).value))
        && (reply.Responded? && reply.ok ==>
              var usersOk := usersRefresh.Responded? && usersRefresh.ok;
              var churchesOk := !usersRefresh.Threw? && churchesRefresh.Responded? && churchesRefresh.ok;
              State() == old(State()).(
                success := AssignedMessage, assignDialogOpen := false,
                selectedUserId := None, selectedChurchId := None,
                users := if usersOk then usersRefresh.body else old(users),
                churches := if churchesOk then churchesRefresh.body else old(churches),
                error := "", loading := false))
        && (reply.Responded? && !reply.ok ==>
              State() == old(State()).(error := Or(reply.body.error, AssignFailedMessage), loading := false))
        && (reply.Threw? ==> State() == old(State()).(error := AssignNetworkMessage, loading := false))
    {
      if Unselected(selectedUserId) || Unselected(selectedChurchId) {
        error := SelectBothMessage;
        return None;
      }
      loading := true;
      error := "";
      sent := Some((selectedUserId.value, selectedChurchId.value));
      ApplyAssignReply(reply, usersRefresh, churchesRefresh);
    }

    /** The reply to the assignment request, once it is under way: an OK one
        closes the dialog, clears the selection and refreshes the lists. */
    method ApplyAssignReply(reply: Reply<ErrorBody>, usersRefresh: Reply<seq<User>>, churchesRefresh: Reply<seq<ChurchSummary>>)
      modifies this
      ensures reply.Responded? && reply.ok ==>
        var usersOk := usersRefresh.Responded? && usersRefresh.ok;
        var churchesOk := !usersRefresh.Threw? && churchesRefresh.Responded? && churchesRefresh.ok;
        State() == old(State()).(
          success := AssignedMessage, assignDialogOpen := false,
          selectedUserId := None, selectedChurchId := None,
          users := if usersOk then usersRefresh.body else old(users),
          churches := if churchesOk then churchesRefresh.body else old(churches),
          loading := false)
      ensures reply.Responded? && !reply.ok ==>
        State() == old(State()).(error := Or(reply.body.error, AssignFailedMessage), loading := false)
      ensures reply.Threw? ==> State() == old(State()).(error := AssignNetworkMessage, loading := false)
    {
      match reply {
        case Responded(ok, _, body) =>
          if ok {
            CloseAssignDialog();
            RefreshQuietly(usersRefresh, churchesRefresh);
          } else {
            error := Or(body.error, AssignFailedMessage);
          }
        case Threw =>
          error := AssignNetworkMessage;
      }
      loading := false;
    }

    /** After a successful assignment: the message, the dialog closed and
        nothing selected. */
    method CloseAssignDialog()
      modifies this
      ensures State() == old(State()).(success := AssignedMessage, assignDialogOpen := false,
                                       selectedUserId := None, selectedChurchId := None)
    {
      success := AssignedMessage;
      assignDialogOpen := false;
      selectedUserId, selectedChurchId := None, None;
    }

    /** After a successful creation: the message, the dialog closed and its
        inputs back to their initial values. */
    method CloseCreateDialog()
      modifies this
      ensures State() == old(State()).(success := AdminCreatedMessage, createAdminOpen := false,
                                       newAdminEmail := "", newAdminName := "", newAdminPassword := "",
                                       newAdminRole := "church_admin")
    {
      success := AdminCreatedMessage;
      createAdminOpen := false;
      newAdminEmail, newAdminName, newAdminPassword := "", "", "";
      newAdminRole := "church_admin";
    }

    /** The two reloads after an assignment, without the loading flag and
        without any message: a list is replaced only by an OK answer, and a
        reload that throws ends the refresh. */
    method RefreshQuietly(usersRefresh: Reply<seq<User>>, churchesRefresh: Reply<seq<ChurchSummary>>)
      modifies this
      ensures State() == old(State()).(
        users := if usersRefresh.Responded? && usersRefresh.ok then usersRefresh.body else old(users),
        churches := if !usersRefresh.Threw? && churchesRefresh.Responded? && churchesRefresh.ok
                    then churchesRefresh.body else old(churches))
    {
      // try {
      if !usersRefresh.Threw? {
        if usersRefresh.ok {
          users := usersRefresh.body;
        }
        if churchesRefresh.Responded? && churchesRefresh.ok {
          churches := churchesRefresh.body;
        }
      }
      // } catch: nothing shown
    }

    /** `handleDeleteUser`: `confirmed` is the answer to the confirmation;
        `reload` whether `loadData` is started afterwards. */
    method HandleDeleteUser(confirmed: bool, reply: Reply<()>) returns (reload: bool)
      modifies this
      ensures reload <==> confirmed && reply.Responded? && reply.ok
      ensures !confirmed ==> State() == old(State())
      ensures confirmed && reply.Responded? && reply.ok ==>
        State() == old(State()).(success := UserDeletedMessage, loading := false)
      ensures confirmed && reply.Responded? && !reply.ok ==>
        State() == old(State()).(error := DeleteUserFailedMessage, loading := false)
      ensures confirmed && reply.Threw? ==>
        State() == old(State()).(error := DeleteUserNetworkMessage, loading := false)
    {
      if !confirmed {
        return false;
      }
      loading := true;
      reload := false;
      match reply {
        case Responded(ok, _, _) =>
          if ok {
            success := UserDeletedMessage;
            reload := true;
          } else {
            error := DeleteUserFailedMessage;
          }
        case Threw =>
          error := DeleteUserNetworkMessage;
      }
      loading := false;
    }

    /** `handleDeleteChurch`, as `HandleDeleteUser`, with the count of removed
        assignments in the success message. */
    method HandleDeleteChurch(confirmed: bool, reply: Reply<DeleteChurchBody>) returns (reload: bool)
      modifies this
      ensures reload <==> confirmed && reply.Responded? && reply.ok
      ensures !confirmed ==> State() == old(State())
      ensures confirmed && reply.Responded? && reply.ok ==>
        State() == old(State()).(success := ChurchDeletedMessage(reply.body.removedAssignments), loading := false)
      ensures confirmed && reply.Responded? && !reply.ok ==>
        State() == old(State()).(error := Or(reply.body.error, DeleteChurchFailedMessage), loading := false)
      ensures confirmed && reply.Threw? ==>
        State() == old(State()).(error := DeleteChurchNetworkMessage, loading := false)
    {
      if !confirmed {
        return false;
      }
      loading := true;
      reload := false;
      match reply {
        case Responded(ok, _, body) =>
          if ok {
            success := ChurchDeletedMessage(body.removedAssignments);
            reload := true;
          } else {
            error := Or(body.error, DeleteChurchFailedMessage);
          }
        case Threw =>
          error := DeleteChurchNetworkMessage;
      }
      loading := false;
    }

    method SetCreateAdminOpen(open: bool)
      modifies this
      ensures State() == old(State()).(createAdminOpen := open)
    {
      createAdminOpen := open;
    }

    method SetAssignDialogOpen(open: bool)
      modifies this
      ensures State() == old(State()).(assignDialogOpen := open)
    {
      assignDialogOpen := open;
    }

    /** The alerts' close buttons. */
    method DismissMessages(clearError: bool, clearSuccess: bool)
      modifies this
      ensures State() == old(State()).(error := if clearError then "" else old(error),
                                       success := if clearSuccess then "" else old(success))
    {
      if clearError {
        error := "";
      }
      if clearSuccess {
        success := "";
      }
    }
  }
}
