/** The supplier slice: a cached list of supplier credentials, the supplier last fetched by identifier,
    and the status surface (loading, error, successMessage), driven by five thunks and one plain reducer. */
module Suppliers {
  import opened JsValues
  import opened Thunks
  import opened Collections

  /** A supplier record as the server returns it; `id` is its `_id`. */
  datatype Supplier = Supplier(
    id: string, name: string, endpoint: string, username: string, password: string,
    targetBranch: string, pcc: string, apiType: string, status: string, priority: int)

  /** The key every lookup, update and delete compares (`s._id`). */
  function Id(s: Supplier): string { s.id }

  const AddedMessage := "Supplier added successfully"
  const UpdatedMessage := "Supplier updated successfully"
  const DeletedMessage := "Supplier deleted successfully"

  /** The fallback reason of each thunk when the server gives no message. */
  const FetchFailed := "Failed to fetch suppliers"
  const FetchOneFailed := "Failed to fetch supplier"
  const CreateFailed := "Failed to create supplier"
  const UpdateFailed := "Failed to update supplier"
  const DeleteFailed := "Failed to delete supplier"

  datatype SupplierState = SupplierState(
    suppliers: seq<Supplier>,
    currentSupplier: Option<Supplier>,
    loading: bool,
    error: Option<string>,
    successMessage: Option<string>)

  function Initial(): SupplierState {
    SupplierState([], None, false, None, None)
  }

  /** The actions the slice receives: its own reducer and the three phases of each thunk
      (fetchSuppliers, fetchSupplierById, createSupplier, updateSupplier, deleteSupplier).
      deleteSupplier is fulfilled with the identifier it was called with. */
  datatype Action =
    | ClearSupplierMessages
    | FetchSuppliers(Phase<seq<Supplier>>)
    | FetchSupplierById(Phase<Supplier>)
    | CreateSupplier(Phase<Supplier>)
    | UpdateSupplier(Phase<Supplier>)
    | DeleteSupplier(Phase<string>)

  /** The reducer as a function of the old state: an action without a registered case
      (fetchSupplierById pending or rejected, updateSupplier and deleteSupplier pending) changes nothing. */
  function Next(s: SupplierState, a: Action): SupplierState {
    match a
    case ClearSupplierMessages => s.(error := None, successMessage := None)
    case FetchSuppliers(Pending) => s.(loading := true)
    case FetchSuppliers(Fulfilled(list)) => s.(loading := false, suppliers := list)
    case FetchSuppliers(Rejected(m)) => s.(loading := false, error := Some(m))
    case FetchSupplierById(Fulfilled(x)) => s.(currentSupplier := Some(x))
    case FetchSupplierById(_) => s
    case CreateSupplier(Pending) => s.(loading := true)
    case CreateSupplier(Fulfilled(x)) =>
      s.(loading := false, suppliers := [x] + s.suppliers, successMessage := Some(AddedMessage))
    case CreateSupplier(Rejected(m)) => s.(loading := false, error := Some(m))
    case UpdateSupplier(Pending) => s
    case UpdateSupplier(Fulfilled(x)) =>
      s.(loading := false, suppliers := ReplaceFirst(s.suppliers, Id, x), successMessage := Some(UpdatedMessage))
    case UpdateSupplier(Rejected(m)) => s.(loading := false, error := Some(m))
    case DeleteSupplier(Pending) => s
    case DeleteSupplier(Fulfilled(id)) =>
      s.(loading := false, suppliers := RemoveKey(s.suppliers, Id, id), successMessage := Some(DeletedMessage))
    case DeleteSupplier(Rejected(m)) => s.(loading := false, error := Some(m))
  }

  /** The slice state as the store holds it, updated field by field by its case reducers. */
  class SupplierSlice {
    var suppliers: seq<Supplier>
    var currentSupplier: Option<Supplier>
    var loading: bool
    var error: Option<string>
    var successMessage: Option<string>

    function State(): SupplierState
      reads this
    {
      SupplierState(suppliers, currentSupplier, loading, error, successMessage)
    }

    constructor ()
      ensures State() == Initial()
    {
      suppliers := [];
      currentSupplier := None;
      loading := false;
      error := None;
      successMessage := None;
    }

    method Dispatch(a: Action)
      modifies this
      ensures State() == Next(old(State()), a)
    {
      match a
      case ClearSupplierMessages =>
        error := None;
        successMessage := None;
      case FetchSuppliers(Pending) =>
        loading := true;
      case FetchSuppliers(Fulfilled(list)) =>
        loading := false;
        suppliers := list;
      case FetchSuppliers(Rejected(m)) =>
        loading := false;
        error := Some(m);
      case FetchSupplierById(Fulfilled(x)) =>
        currentSupplier := Some(x);
      case FetchSupplierById(_) =>
      case CreateSupplier(Pending) =>
        loading := true;
      case CreateSupplier(Fulfilled(x)) =>
        loading := false;
        suppliers := [x] + suppliers;
        successMessage := Some(AddedMessage);
      case CreateSupplier(Rejected(m)) =>
        loading := false;
        error := Some(m);
      case UpdateSupplier(Pending) =>
      case UpdateSupplier(Fulfilled(x)) =>
        loading := false;
        ReplaceFirstByIndex(suppliers, Id, x);
        var index := FindIndex(suppliers, Id, x.id);
        if index != -1 {
          suppliers := suppliers[index := x];
        }
        successMessage := Some(UpdatedMessage);
      case UpdateSupplier(Rejected(m)) =>
        loading := false;
        error := Some(m);
      case DeleteSupplier(Pending) =>
      case DeleteSupplier(Fulfilled(id)) =>
        loading := false;
        suppliers := RemoveKey(suppliers, Id, id);
        successMessage := Some(DeletedMessage);
      case DeleteSupplier(Rejected(m)) =>
        loading := false;
        error := Some(m);
    }
  }

  /** clearSupplierMessages nulls both messages and nothing else; doing it twice is doing it once. */
  lemma ClearMessagesOnlyClears(s: SupplierState)
    ensures var t := Next(s, ClearSupplierMessages);
      && t.error == None && t.successMessage == None
      && t.suppliers == s.suppliers && t.currentSupplier == s.currentSupplier && t.loading == s.loading
      && Next(t, ClearSupplierMessages) == t
  {
  }

  /** fetchSuppliers.fulfilled installs the server's list and ends loading; a second identical
      response leaves the state as the first one left it. */
  lemma FetchFulfilledIdempotent(s: SupplierState, list: seq<Supplier>)
    ensures var t := Next(s, FetchSuppliers(Fulfilled(list)));
      && t.suppliers == list && !t.loading
      && t.currentSupplier == s.currentSupplier && t.error == s.error && t.successMessage == s.successMessage
      && Next(t, FetchSuppliers(Fulfilled(list))) == t
  {
  }

  /** createSupplier.fulfilled puts the new record at the head (`unshift`): one longer, old records in
      their old order behind it, the success message set. */
  lemma CreatePrepends(s: SupplierState, x: Supplier)
    ensures var t := Next(s, CreateSupplier(Fulfilled(x)));
      && |t.suppliers| == |s.suppliers| + 1
      && t.suppliers[0] == x && t.suppliers[1..] == s.suppliers
      && !t.loading && t.successMessage == Some(AddedMessage)
      && t.error == s.error && t.currentSupplier == s.currentSupplier
  {
  }

  /** updateSupplier.fulfilled replaces only the first record with the payload's `_id`; every other
      position is untouched, and with no such record the list is unchanged. */
  lemma UpdateReplacesFirstMatch(s: SupplierState, x: Supplier)
    ensures var t := Next(s, UpdateSupplier(Fulfilled(x)));
      var i := FindIndex(s.suppliers, Id, x.id);
      && |t.suppliers| == |s.suppliers|
      && (i != -1 ==> t.suppliers[i] == x && forall j :: 0 <= j < i ==> s.suppliers[j].id != x.id)
      && (forall j :: 0 <= j < |s.suppliers| && j != i ==> t.suppliers[j] == s.suppliers[j])
      && (!HasKey(s.suppliers, Id, x.id) ==> t.suppliers == s.suppliers)
      && !t.loading && t.successMessage == Some(UpdatedMessage)
      && t.error == s.error && t.currentSupplier == s.currentSupplier
  {
    if !HasKey(s.suppliers, Id, x.id) {
      ReplaceNoMatch(s.suppliers, Id, x);
    }
  }

  /** deleteSupplier.fulfilled leaves no record with the deleted `_id` and keeps every other record
      (in order, by `RemoveKeyAppend`). */
  lemma DeleteRemovesMatches(s: SupplierState, id: string)
    ensures var l := Next(s, DeleteSupplier(Fulfilled(id))).suppliers;
      && (forall j :: 0 <= j < |l| ==> l[j].id != id)
      && (forall j :: 0 <= j < |s.suppliers| && s.suppliers[j].id != id ==> s.suppliers[j] in l)
      && (forall j :: 0 <= j < |l| ==> l[j] in s.suppliers)
  {
    assert Next(s, DeleteSupplier(Fulfilled(id))).suppliers == RemoveKey(s.suppliers, Id, id);
  }

  /** deleteSupplier.fulfilled shortens the list by the number of matches: by one when identifiers are
      unique and the identifier is present, by none when it is absent (the list is then unchanged). */
  lemma DeleteLength(s: SupplierState, id: string)
    ensures var l := Next(s, DeleteSupplier(Fulfilled(id))).suppliers;
      && |l| == |s.suppliers| - CountKey(s.suppliers, Id, id)
      && (UniqueKeys(s.suppliers, Id) && HasKey(s.suppliers, Id, id) ==> |l| == |s.suppliers| - 1)
      && (!HasKey(s.suppliers, Id, id) ==> l == s.suppliers)
  {
    assert Next(s, DeleteSupplier(Fulfilled(id))).suppliers == RemoveKey(s.suppliers, Id, id);
    if UniqueKeys(s.suppliers, Id) && HasKey(s.suppliers, Id, id) {
      RemoveUniquePresent(s.suppliers, Id, id);
    }
    if !HasKey(s.suppliers, Id, id) {
      RemoveAbsentKey(s.suppliers, Id, id);
    }
  }

  /** deleteSupplier.fulfilled ends loading and sets the success message; the error and the current
      supplier stay as they were. */
  lemma DeleteStatus(s: SupplierState, id: string)
    ensures var t := Next(s, DeleteSupplier(Fulfilled(id)));
      && !t.loading && t.successMessage == Some(DeletedMessage)
      && t.error == s.error && t.currentSupplier == s.currentSupplier
  {
  }

  /** fetchSupplierById.fulfilled fills the single current-supplier slot and touches nothing else:
      the list, loading and both messages stay as they were. */
  lemma FetchByIdSetsCurrent(s: SupplierState, x: Supplier)
    ensures Next(s, FetchSupplierById(Fulfilled(x))) == s.(currentSupplier := Some(x))
  {
  }

  /** Every rejected case ends loading and records the reason, and never touches the cached records;
      fetchSupplierById has no rejected case, so its failure is not recorded at all. */
  lemma RejectionsKeepRecords(s: SupplierState, m: string)
    ensures Next(s, FetchSuppliers(Rejected(m))) == s.(loading := false, error := Some(m))
    ensures Next(s, CreateSupplier(Rejected(m))) == s.(loading := false, error := Some(m))
    ensures Next(s, UpdateSupplier(Rejected(m))) == s.(loading := false, error := Some(m))
    ensures Next(s, DeleteSupplier(Rejected(m))) == s.(loading := false, error := Some(m))
    ensures Next(s, FetchSupplierById(Rejected(m))) == s
  {
  }

  /** A failed call is reported with the server's message when it has one and the thunk's fallback otherwise. */
  lemma FailedCallsReported(s: SupplierState, message: Option<string>)
    ensures Next(s, FetchSuppliers(Settle(Failed(message), FetchFailed))).error == Some(Or(message, FetchFailed))
    ensures Next(s, CreateSupplier(Settle(Failed(message), CreateFailed))).error == Some(Or(message, CreateFailed))
    ensures Next(s, UpdateSupplier(Settle(Failed(message), UpdateFailed))).error == Some(Or(message, UpdateFailed))
    ensures Next(s, DeleteSupplier(Settle(Failed(message), DeleteFailed))).error == Some(Or(message, DeleteFailed))
    ensures Next(s, FetchSupplierById(Settle(Failed(message), FetchOneFailed))) == s
  {
  }

  /** fetchSuppliers and createSupplier start loading without clearing an earlier error;
      updateSupplier, deleteSupplier and fetchSupplierById have no pending case and change nothing. */
  lemma PendingRules(s: SupplierState)
    ensures Next(s, FetchSuppliers(Pending)) == s.(loading := true)
    ensures Next(s, CreateSupplier(Pending)) == s.(loading := true)
    ensures Next(s, UpdateSupplier(Pending)) == s
    ensures Next(s, DeleteSupplier(Pending)) == s
    ensures Next(s, FetchSupplierById(Pending)) == s
  {
  }

  /** What a transition needs so that `_id`s stay distinct: a fetched list with distinct `_id`s,
      a created record with a new `_id`. */
  ghost predicate KeepsIdsUnique(s: SupplierState, a: Action) {
    match a
    case FetchSuppliers(Fulfilled(list)) => UniqueKeys(list, Id)
    case CreateSupplier(Fulfilled(x)) => !HasKey(s.suppliers, Id, x.id)
    case _ => true
  }

  /** Identifiers unique per collection is an invariant of the slice under those two conditions. */
  lemma NextKeepsIdsUnique(s: SupplierState, a: Action)
    requires UniqueKeys(s.suppliers, Id) && KeepsIdsUnique(s, a)
    ensures UniqueKeys(Next(s, a).suppliers, Id)
  {
    match a
    case CreateSupplier(Fulfilled(x)) => InsertKeepsUnique(s.suppliers, Id, x);
    case UpdateSupplier(Fulfilled(x)) => ReplaceKeepsUnique(s.suppliers, Id, x);
    case DeleteSupplier(Fulfilled(id)) => RemoveKeepsUnique(s.suppliers, Id, id);
    case _ =>
  }
}
