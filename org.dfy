/** The organization slice: the single organization of the session and the status surface,
    driven by four thunks and two plain reducers. */
module Org {
  import opened JsValues
  import opened Thunks

  /** An organization record as the server returns it; `id` is its `_id`. */
  datatype Organization = Organization(id: string, name: string, address: string, active: bool, maintenanceMode: bool)

  const StatusMessage := "Organization status updated successfully"
  const UpdatedMessage := "Organization updated successfully"
  const DeletedMessage := "Organization deleted successfully"

  const FetchFailed := "Failed to fetch organization"
  const StatusFailed := "Failed to update status"
  const UpdateFailed := "Failed to update organization"
  const DeleteFailed := "Failed to delete organization"

  datatype OrgState = OrgState(
    org: Option<Organization>,
    loading: bool,
    error: Option<string>,
    successMessage: Option<string>)

  function Initial(): OrgState {
    OrgState(None, false, None, None)
  }

  /** clearOrgMessages, resetOrg and the phases of fetchOrg, updateOrgStatus, updateOrg and deleteOrg. */
  datatype Action =
    | ClearOrgMessages
    | ResetOrg
    | FetchOrg(Phase<Organization>)
    | UpdateOrgStatus(Phase<Organization>)
    | UpdateOrg(Phase<Organization>)
    | DeleteOrg(Phase<Organization>)

  /** The reducer as a function of the old state. */
  function Next(s: OrgState, a: Action): OrgState {
    match a
    case ClearOrgMessages => s.(error := None, successMessage := None)
    case ResetOrg => s.(org := None, error := None, successMessage := None, loading := false)
    case FetchOrg(Pending) => s.(loading := true, error := None)
    case FetchOrg(Fulfilled(o)) => s.(loading := false, org := Some(o))
    case UpdateOrgStatus(Pending) => s.(loading := true)
    case UpdateOrgStatus(Fulfilled(o)) => s.(loading := false, org := Some(o), successMessage := Some(StatusMessage))
    case UpdateOrg(Pending) => s.(loading := true)
    case UpdateOrg(Fulfilled(o)) => s.(loading := false, org := Some(o), successMessage := Some(UpdatedMessage))
    case DeleteOrg(Pending) => s.(loading := true)
    case DeleteOrg(Fulfilled(_)) => s.(loading := false, org := None, successMessage := Some(DeletedMessage))
    case FetchOrg(Rejected(m)) => s.(loading := false, error := Some(m))
    case UpdateOrgStatus(Rejected(m)) => s.(loading := false, error := Some(m))
    case UpdateOrg(Rejected(m)) => s.(loading := false, error := Some(m))
    case DeleteOrg(Rejected(m)) => s.(loading := false, error := Some(m))
  }

  class OrgSlice {
    var org: Option<Organization>
    var loading: bool
    var error: Option<string>
    var successMessage: Option<string>

    function State(): OrgState
      reads this
    {
      OrgState(org, loading, error, successMessage)
    }

    constructor ()
      ensures State() == Initial()
    {
      org := None;
      loading := false;
      error := None;
      successMessage := None;
    }

    method Dispatch(a: Action)
      modifies this
      ensures State() == Next(old(State()), a)
    {
      match a
      case ClearOrgMessages =>
        error := None;
        successMessage := None;
      case ResetOrg =>
        org := None;
        error := None;
        successMessage := None;
        loading := false;
      case FetchOrg(Pending) =>
        loading := true;
        error := None;
      case FetchOrg(Fulfilled(o)) =>
        loading := false;
        org := Some(o);
      case UpdateOrgStatus(Pending) =>
        loading := true;
      case UpdateOrgStatus(Fulfilled(o)) =>
        loading := false;
        org := Some(o);
        successMessage := Some(StatusMessage);
      case UpdateOrg(Pending) =>
        loading := true;
      case UpdateOrg(Fulfilled(o)) =>
        loading := false;
        org := Some(o);
        successMessage := Some(UpdatedMessage);
      case DeleteOrg(Pending) =>
        loading := true;
      case DeleteOrg(Fulfilled(_)) =>
        loading := false;
        org := None;
        successMessage := Some(DeletedMessage);
      case FetchOrg(Rejected(m)) =>
        loading := false;
        error := Some(m);
      case UpdateOrgStatus(Rejected(m)) =>
        loading := false;
        error := Some(m);
      case UpdateOrg(Rejected(m)) =>
        loading := false;
        error := Some(m);
      case DeleteOrg(Rejected(m)) =>
        loading := false;
        error := Some(m);
    }
  }

  /** Only fetchOrg.pending clears an earlier error; every pending case starts loading. */
  lemma PendingRules(s: OrgState)
    ensures Next(s, FetchOrg(Pending)) == s.(loading := true, error := None)
    ensures Next(s, UpdateOrgStatus(Pending)) == s.(loading := true)
    ensures Next(s, UpdateOrg(Pending)) == s.(loading := true)
    ensures Next(s, DeleteOrg(Pending)) == s.(loading := true)
  {
  }

  /** fetchOrg.fulfilled installs the organization and ends loading without touching either message. */
  lemma FetchInstallsOrg(s: OrgState, o: Organization)
    ensures var t := Next(s, FetchOrg(Fulfilled(o)));
      t.org == Some(o) && !t.loading && t.successMessage == s.successMessage && t.error == s.error
  {
  }

  /** Both updates replace the cached organization wholesale with the server's copy, whatever was cached,
      and each sets its own success message. */
  lemma UpdatesReplaceWholesale(s: OrgState, o: Organization)
    ensures var t := Next(s, UpdateOrgStatus(Fulfilled(o)));
      t.org == Some(o) && !t.loading && t.successMessage == Some(StatusMessage) && t.error == s.error
    ensures var t := Next(s, UpdateOrg(Fulfilled(o)));
      t.org == Some(o) && !t.loading && t.successMessage == Some(UpdatedMessage) && t.error == s.error
    ensures Next(s, UpdateOrg(Fulfilled(o))).org == Next(s.(org := None), UpdateOrg(Fulfilled(o))).org
  {
  }

  /** deleteOrg.fulfilled drops the organization whatever the payload. */
  lemma DeleteDropsOrg(s: OrgState, o1: Organization, o2: Organization)
    ensures Next(s, DeleteOrg(Fulfilled(o1))) == Next(s, DeleteOrg(Fulfilled(o2)))
    ensures var t := Next(s, DeleteOrg(Fulfilled(o1)));
      t.org == None && !t.loading && t.successMessage == Some(DeletedMessage) && t.error == s.error
  {
  }

  /** Every rejection ends loading, records the reason and leaves the organization as it was. */
  lemma RejectionsKeepOrg(s: OrgState, m: string)
    ensures Next(s, FetchOrg(Rejected(m))) == s.(loading := false, error := Some(m))
    ensures Next(s, UpdateOrgStatus(Rejected(m))) == s.(loading := false, error := Some(m))
    ensures Next(s, UpdateOrg(Rejected(m))) == s.(loading := false, error := Some(m))
    ensures Next(s, DeleteOrg(Rejected(m))) == s.(loading := false, error := Some(m))
  {
  }

  /** A failed call is reported with the server's message when it has one and the thunk's fallback otherwise. */
  lemma FailedCallsReported(s: OrgState, message: Option<string>)
    ensures Next(s, FetchOrg(Settle(Failed(message), FetchFailed))).error == Some(Or(message, FetchFailed))
    ensures Next(s, UpdateOrgStatus(Settle(Failed(message), StatusFailed))).error == Some(Or(message, StatusFailed))
    ensures Next(s, UpdateOrg(Settle(Failed(message), UpdateFailed))).error == Some(Or(message, UpdateFailed))
    ensures Next(s, DeleteOrg(Settle(Failed(message), DeleteFailed))).error == Some(Or(message, DeleteFailed))
  {
  }

  /** resetOrg brings any state back to the initial one, so it is idempotent. */
  lemma ResetIsInitial(s: OrgState)
    ensures Next(s, ResetOrg) == Initial()
    ensures Next(Next(s, ResetOrg), ResetOrg) == Next(s, ResetOrg)
  {
  }

  /** clearOrgMessages changes the two messages only. */
  lemma ClearMessagesOnlyClears(s: OrgState)
    ensures var t := Next(s, ClearOrgMessages);
      t.error == None && t.successMessage == None && t.org == s.org && t.loading == s.loading
  {
  }

  /** Every fulfilled or rejected case leaves loading off. */
  lemma SettlingEndsLoading(s: OrgState, a: Action)
    requires match a
      case FetchOrg(p) => !p.Pending?
      case UpdateOrgStatus(p) => !p.Pending?
      case UpdateOrg(p) => !p.Pending?
      case DeleteOrg(p) => !p.Pending?
      case _ => false
    ensures !Next(s, a).loading
  {
  }
}
