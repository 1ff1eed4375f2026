/** The users slice: the organization's users (the main user and its sub-users) and the status surface,
    driven by five thunks and one plain reducer; plus the status toggle of the users view. */
module Users {
  import opened JsValues
  import opened Thunks
  import opened Collections

  /** A user record as the server returns it; `id` is its `_id`, `role` is "main" or "sub". */
  datatype User = User(id: string, name: string, email: string, role: string, status: string)

  function Id(u: User): string { u.id }

  const AddedMessage := "Sub-user added successfully"
  const StatusMessage := "User status updated"
  const UpdatedMessage := "Sub-user updated"
  const DeletedMessage := "Sub-user deleted"

  const FetchFailed := "Failed to fetch users"
  const AddFailed := "Failed to add sub user"
  const StatusFailed := "Failed to update status"
  const UpdateFailed := "Failed to update sub user"
  const DeleteFailed := "Failed to delete sub user"

  datatype UserState = UserState(
    users: seq<User>,
    loading: bool,
    error: Option<string>,
    successMessage: Option<string>)

  function Initial(): UserState {
    UserState([], false, None, None)
  }

  /** clearMessages and the phases of getUsers, addSubUser, updateUserStatus, updateSubUser and
      deleteSubUser (fulfilled with the identifier it was called with). */
  datatype Action =
    | ClearMessages
    | GetUsers(Phase<seq<User>>)
    | AddSubUser(Phase<User>)
    | UpdateUserStatus(Phase<User>)
    | UpdateSubUser(Phase<User>)
    | DeleteSubUser(Phase<string>)

  /** The reducer as a function of the old state. Only getUsers has a pending case and only its
      cases touch `loading`; the other four thunks never change it. */
  function Next(s: UserState, a: Action): UserState {
    match a
    case ClearMessages => s.(error := None, successMessage := None)
    case GetUsers(Pending) => s.(loading := true)
    case GetUsers(Fulfilled(list)) => s.(loading := false, users := list)
    case GetUsers(Rejected(m)) => s.(loading := false, error := Some(m))
    case AddSubUser(Fulfilled(u)) => s.(users := s.users + [u], successMessage := Some(AddedMessage))
    case UpdateUserStatus(Fulfilled(u)) =>
      s.(users := ReplaceEvery(s.users, Id, u), successMessage := Some(StatusMessage))
    case UpdateSubUser(Fulfilled(u)) =>
      s.(users := ReplaceEvery(s.users, Id, u), successMessage := Some(UpdatedMessage))
    case DeleteSubUser(Fulfilled(id)) =>
      s.(users := RemoveKey(s.users, Id, id), successMessage := Some(DeletedMessage))
    case AddSubUser(Rejected(m)) => s.(error := Some(m))
    case UpdateUserStatus(Rejected(m)) => s.(error := Some(m))
    case UpdateSubUser(Rejected(m)) => s.(error := Some(m))
    case DeleteSubUser(Rejected(m)) => s.(error := Some(m))
    case _ => s
  }

  class UserSlice {
    var users: seq<User>
    var loading: bool
    var error: Option<string>
    var successMessage: Option<string>

    function State(): UserState
      reads this
    {
      UserState(users, loading, error, successMessage)
    }

    constructor ()
      ensures State() == Initial()
    {
      users := [];
      loading := false;
      error := None;
      successMessage := None;
    }

    method Dispatch(a: Action)
      modifies this
      ensures State() == Next(old(State()), a)
    {
      match a
      case ClearMessages =>
        error := None;
        successMessage := None;
      case GetUsers(Pending) =>
        loading := true;
      case GetUsers(Fulfilled(list)) =>
        loading := false;
        users := list;
      case GetUsers(Rejected(m)) =>
        loading := false;
        error := Some(m);
      case AddSubUser(Fulfilled(u)) =>
        users := users + [u];
        successMessage := Some(AddedMessage);
      case UpdateUserStatus(Fulfilled(u)) =>
        users := ReplaceEvery(users, Id, u);
        successMessage := Some(StatusMessage);
      case UpdateSubUser(Fulfilled(u)) =>
        users := ReplaceEvery(users, Id, u);
        successMessage := Some(UpdatedMessage);
      case DeleteSubUser(Fulfilled(id)) =>
        users := RemoveKey(users, Id, id);
        successMessage := Some(DeletedMessage);
      case AddSubUser(Rejected(m)) =>
        error := Some(m);
      case UpdateUserStatus(Rejected(m)) =>
        error := Some(m);
      case UpdateSubUser(Rejected(m)) =>
        error := Some(m);
      case DeleteSubUser(Rejected(m)) =>
        error := Some(m);
      case _ =>
    }
  }

  /** getUsers starts loading, and its fulfilment installs the server's list and ends loading. */
  lemma GetUsersRules(s: UserState, list: seq<User>)
    ensures Next(s, GetUsers(Pending)) == s.(loading := true)
    ensures var t := Next(s, GetUsers(Fulfilled(list)));
      t.users == list && !t.loading && t.error == s.error && t.successMessage == s.successMessage
    ensures Next(Next(s, GetUsers(Fulfilled(list))), GetUsers(Fulfilled(list))) == Next(s, GetUsers(Fulfilled(list)))
  {
  }

  /** addSubUser.fulfilled appends (`push`): the old list followed by the new user; loading is untouched. */
  lemma AddAppends(s: UserState, u: User)
    ensures var t := Next(s, AddSubUser(Fulfilled(u)));
      && t.users == s.users + [u] && |t.users| == |s.users| + 1 && t.users[|s.users|] == u
      && t.successMessage == Some(AddedMessage) && t.loading == s.loading && t.error == s.error
  {
  }

  /** updateUserStatus.fulfilled and updateSubUser.fulfilled replace every user with the payload's `_id`
      by the payload and keep all others in place (`ReplaceEvery`); each sets its own message. */
  lemma UpdatesReplaceAllMatches(s: UserState, u: User)
    ensures var t := Next(s, UpdateUserStatus(Fulfilled(u)));
      t.users == ReplaceEvery(s.users, Id, u)
      && t.successMessage == Some(StatusMessage) && t.loading == s.loading && t.error == s.error
    ensures var t := Next(s, UpdateSubUser(Fulfilled(u)));
      t.users == ReplaceEvery(s.users, Id, u)
      && t.successMessage == Some(UpdatedMessage) && t.loading == s.loading && t.error == s.error
  {
  }

  /** With no match an update leaves the list as it was. */
  lemma UpdateWithoutMatch(s: UserState, u: User)
    requires !HasKey(s.users, Id, u.id)
    ensures Next(s, UpdateSubUser(Fulfilled(u))).users == s.users
    ensures Next(s, UpdateUserStatus(Fulfilled(u))).users == s.users
  {
    UpdatesReplaceAllMatches(s, u);
    ReplaceNoMatch(s.users, Id, u);
  }

  /** With distinct identifiers an update replaces the one match, as a first-match replacement would. */
  lemma UniqueUpdateReplacesOne(s: UserState, u: User)
    requires UniqueKeys(s.users, Id)
    ensures Next(s, UpdateSubUser(Fulfilled(u))).users == ReplaceFirst(s.users, Id, u)
    ensures Next(s, UpdateUserStatus(Fulfilled(u))).users == ReplaceFirst(s.users, Id, u)
  {
    UpdatesReplaceAllMatches(s, u);
    UniqueReplaceEveryIsReplaceFirst(s.users, Id, u);
  }

  /** deleteSubUser.fulfilled removes exactly the users with the given `_id` and keeps the rest
      (in order, by `RemoveKeyAppend`). */
  lemma DeleteRemovesMatches(s: UserState, id: string)
    ensures var l := Next(s, DeleteSubUser(Fulfilled(id))).users;
      && (forall j :: 0 <= j < |l| ==> l[j].id != id)
      && (forall j :: 0 <= j < |s.users| && s.users[j].id != id ==> s.users[j] in l)
      && (forall j :: 0 <= j < |l| ==> l[j] in s.users)
  {
    assert Next(s, DeleteSubUser(Fulfilled(id))).users == RemoveKey(s.users, Id, id);
  }

  /** deleteSubUser.fulfilled shortens the list by the number of matches: by one when identifiers are
      unique and the identifier is present, by none when it is absent (the list is then unchanged). */
  lemma DeleteLength(s: UserState, id: string)
    ensures var l := Next(s, DeleteSubUser(Fulfilled(id))).users;
      && |l| == |s.users| - CountKey(s.users, Id, id)
      && (UniqueKeys(s.users, Id) && HasKey(s.users, Id, id) ==> |l| == |s.users| - 1)
      && (!HasKey(s.users, Id, id) ==> l == s.users)
  {
    assert Next(s, DeleteSubUser(Fulfilled(id))).users == RemoveKey(s.users, Id, id);
    if UniqueKeys(s.users, Id) && HasKey(s.users, Id, id) {
      RemoveUniquePresent(s.users, Id, id);
    }
    if !HasKey(s.users, Id, id) {
      RemoveAbsentKey(s.users, Id, id);
    }
  }

  /** deleteSubUser.fulfilled writes only the list and the success message. */
  lemma DeleteStatus(s: UserState, id: string)
    ensures var t := Next(s, DeleteSubUser(Fulfilled(id)));
      t.successMessage == Some(DeletedMessage) && t.loading == s.loading && t.error == s.error
  {
  }

  /** The rejections of addSubUser, updateUserStatus, updateSubUser and deleteSubUser set only the error;
      getUsers.rejected also ends loading. No rejection touches the users. */
  lemma RejectionsSetOnlyError(s: UserState, m: string)
    ensures Next(s, GetUsers(Rejected(m))) == s.(loading := false, error := Some(m))
    ensures Next(s, AddSubUser(Rejected(m))) == s.(error := Some(m))
    ensures Next(s, UpdateUserStatus(Rejected(m))) == s.(error := Some(m))
    ensures Next(s, UpdateSubUser(Rejected(m))) == s.(error := Some(m))
    ensures Next(s, DeleteSubUser(Rejected(m))) == s.(error := Some(m))
  {
  }

  /** A failed call is reported with the server's message when it has one and the thunk's fallback otherwise. */
  lemma FailedCallsReported(s: UserState, message: Option<string>)
    ensures Next(s, GetUsers(Settle(Failed(message), FetchFailed))).error == Some(Or(message, FetchFailed))
    ensures Next(s, AddSubUser(Settle(Failed(message), AddFailed))).error == Some(Or(message, AddFailed))
    ensures Next(s, UpdateUserStatus(Settle(Failed(message), StatusFailed))).error == Some(Or(message, StatusFailed))
    ensures Next(s, UpdateSubUser(Settle(Failed(message), UpdateFailed))).error == Some(Or(message, UpdateFailed))
    ensures Next(s, DeleteSubUser(Settle(Failed(message), DeleteFailed))).error == Some(Or(message, DeleteFailed))
  {
  }

  /** clearMessages nulls both messages and leaves the users and loading alone. */
  lemma ClearMessagesOnlyClears(s: UserState)
    ensures var t := Next(s, ClearMessages);
      t.error == None && t.successMessage == None && t.users == s.users && t.loading == s.loading
  {
  }

  /** The pending actions of the four mutating thunks have no case and change nothing, so `loading`
      is only ever set by getUsers. */
  lemma OnlyGetUsersTouchesLoading(s: UserState, a: Action)
    requires !a.GetUsers?
    ensures Next(s, a).loading == s.loading
  {
  }

  /** The scenario of a status toggle echoed by the server: the toggled user shows the new status,
      every other user is as it was. */
  lemma StatusToggleScenario(before: seq<User>, k: nat, name: string, email: string, role: string)
    requires k < |before| && before[k].id == "u1" && UniqueKeys(before, Id)
    ensures var echo := User("u1", name, email, role, "inactive");
      var t := Next(UserState(before, false, None, None), UpdateUserStatus(Fulfilled(echo)));
      && t.users[k].status == "inactive"
      && forall j :: 0 <= j < |before| && j != k ==> t.users[j] == before[j]
  {
  }

  /** Users.jsx toggleStatus: the status sent to updateUserStatus. */
  function ToggleStatus(current: string): (next: string)
    ensures next == "active" || next == "inactive"
    ensures next == "inactive" <==> current == "active"
  {
    if current == "active" then "inactive" else "active"
  }

  /** Toggling twice returns an "active" or "inactive" status to itself; any other value becomes "active". */
  lemma ToggleTwice(current: string)
    ensures current == "active" || current == "inactive" ==> ToggleStatus(ToggleStatus(current)) == current
    ensures current != "active" ==> ToggleStatus(current) == "active"
  {
  }

  ghost predicate KeepsIdsUnique(s: UserState, a: Action) {
    match a
    case GetUsers(Fulfilled(list)) => UniqueKeys(list, Id)
    case AddSubUser(Fulfilled(u)) => !HasKey(s.users, Id, u.id)
    case _ => true
  }

  /** Identifiers stay distinct across every transition, given a fetched list with distinct
      identifiers and an added user with a new one. */
  lemma NextKeepsIdsUnique(s: UserState, a: Action)
    requires UniqueKeys(s.users, Id) && KeepsIdsUnique(s, a)
    ensures UniqueKeys(Next(s, a).users, Id)
  {
    match a
    case AddSubUser(Fulfilled(u)) => InsertKeepsUnique(s.users, Id, u);
    case UpdateUserStatus(Fulfilled(u)) => ReplaceKeepsUnique(s.users, Id, u);
    case UpdateSubUser(Fulfilled(u)) => ReplaceKeepsUnique(s.users, Id, u);
    case DeleteSubUser(Fulfilled(id)) => RemoveKeepsUnique(s.users, Id, id);
    case _ =>
  }
}
