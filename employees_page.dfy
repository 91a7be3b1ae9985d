/** The admin's employee list: the username search, the show/hide switch of
    each password, inline editing with its checks and error messages, and
    the delete confirmation. */
module EmployeesPage {
  import opened Text

  datatype Employee = Employee(
    id: string,
    username: string,
    passwordHash: string,
    email: Option<string>,
    role: string,
    createdAt: int)

  // ---------------------------------------------------------------------------
  // Search

  /** The search keeps an employee whose username, lower-cased, contains the
      lower-cased term (ASCII case folding). */
  predicate Matches(e: Employee, term: string) {
    Contains(Lower(e.username), Lower(term))
  }

  /** The employees the list shows for a search term. */
  function FilterEmployees(employees: seq<Employee>, term: string): (r: seq<Employee>)
    ensures |r| <= |employees|
    ensures forall e :: e in r <==> e in employees && Matches(e, term)
  {
    if employees == [] then []
    else (if Matches(employees[0], term) then [employees[0]] else []) + FilterEmployees(employees[1..], term)
  }

  /** The search keeps the list's order: filtering two stretches of the list
      and putting them together is filtering the whole. */
  lemma {:induction false} FilterConcat(a: seq<Employee>, b: seq<Employee>, term: string)
    ensures FilterEmployees(a + b, term) == FilterEmployees(a, term) + FilterEmployees(b, term)
  {
    if a == [] {
      assert a + b == b;
    } else {
      assert (a + b)[1..] == a[1..] + b;
      FilterConcat(a[1..], b, term);
    }
  }

  /** An empty search term keeps every employee, in order. */
  lemma {:induction false} FilterEmptyTerm(employees: seq<Employee>)
    ensures FilterEmployees(employees, "") == employees
  {
    if employees != [] {
      ContainsEmpty(Lower(employees[0].username));
      FilterEmptyTerm(employees[1..]);
    }
  }

  // ---------------------------------------------------------------------------
  // Checks and messages

  const RequiredMessage := "Username and password are required"
  const TooShortMessage := "Password must be at least 6 characters"
  const DuplicateMessage := "Username already exists"
  const UpdateFailedMessage := "Failed to update employee"
  const DeleteFailedMessage := "Failed to delete employee"
  const UnexpectedMessage := "An unexpected error occurred"
  const UpdatedMessage := "Employee updated successfully"
  const DeletedMessage := "Employee deleted successfully"
  const LoadFailedMessage := "Failed to load employees"
  const UniqueViolation := "23505"

  /** The checks on an edit before it is sent: neither field may be blank
      after trimming; then the password, untrimmed, needs six UTF-16 code
      units. */
  function CheckEdit(username: string, password: string): (e: Option<string>)
    ensures e.None? <==> !IsBlank(username) && !IsBlank(password) && Utf16Length(password) >= 6
    ensures IsBlank(username) || IsBlank(password) ==> e == Some(RequiredMessage)
    ensures !IsBlank(username) && !IsBlank(password) && Utf16Length(password) < 6 ==> e == Some(TooShortMessage)
  {
    if IsBlank(username) || IsBlank(password) then Some(RequiredMessage)
    else if Utf16Length(password) < 6 then Some(TooShortMessage)
    else None
  }

  /** A six-space password is reported as missing, not as too short: the
      blank check comes first. */
  lemma BlankCheckedFirst()
    ensures CheckEdit("alice", "      ") == Some(RequiredMessage)
    ensures CheckEdit("alice", " ab ") == Some(TooShortMessage)
  {
    assert IsJsWhitespace(' ');
    assert !IsBlank("alice") by { assert !IsJsWhitespace("alice"[0]); }
    assert !IsBlank(" ab ") by { assert !IsJsWhitespace(" ab "[1]); }
  }

  function UpdateErrorMessage(code: string): (m: string)
    ensures m == DuplicateMessage <==> code == UniqueViolation
    ensures m != DuplicateMessage ==> m == UpdateFailedMessage
  {
    if code == UniqueViolation then DuplicateMessage else UpdateFailedMessage
  }

  // ---------------------------------------------------------------------------
  // Password visibility

  /** Whether an employee's password is shown; an id never toggled is
      hidden. */
  function Shown(flags: map<string, bool>, id: string): bool {
    id in flags && flags[id]
  }

  /** Toggling one id flips exactly that id's flag. */
  function ToggleFlag(flags: map<string, bool>, id: string): (r: map<string, bool>)
    ensures Shown(r, id) == !Shown(flags, id)
    ensures forall k :: k != id ==> Shown(r, k) == Shown(flags, k)
    ensures r.Keys == flags.Keys + {id}
  {
    flags[id := !Shown(flags, id)]
  }

  /** Toggling the same id twice shows and hides exactly what was shown and
      hidden before. */
  lemma ToggleTwice(flags: map<string, bool>, id: string, k: string)
    ensures Shown(ToggleFlag(ToggleFlag(flags, id), id), k) == Shown(flags, k)
  {
  }

  // ---------------------------------------------------------------------------
  // The page

  /** The store's answers. */
  datatype FetchReply = Fetched(data: Option<seq<Employee>>) | FetchFailed | FetchThrew
  datatype WriteReply = WriteOk | WriteFailed(code: string) | WriteThrew

  /** The writes the page issues. */
  datatype StoreWrite = UpdateUser(id: string, username: string, password: string) | DeleteUser(id: string)

  /** Everything the page holds, one field per piece of its state. */
  datatype PageState = PageState(
    employees: seq<Employee>,
    loading: bool,
    searchTerm: string,
    error: string,
    editingId: Option<string>,
    editUsername: string,
    editPassword: string,
    showPasswords: map<string, bool>,
    updateError: string,
    updateSuccess: string,
    updating: bool,
    deleteModalOpen: bool,
    employeeToDelete: Option<Employee>,
    deleting: bool,
    writes: seq<StoreWrite>)

  /** The state after the employee list is loaded: a fetched list (none
      reads as empty) replaces the old one, a failure sets the page error,
      and loading ends either way. Nothing else changes. */
  function Reloaded(st: PageState, reply: FetchReply): (r: PageState)
    ensures !r.loading
    ensures r.(employees := st.employees, error := st.error, loading := st.loading) == st
    ensures reply.Fetched? ==> r.employees == (if reply.data.Some? then reply.data.value else []) && r.error == st.error
    ensures !reply.Fetched? ==> r.employees == st.employees && r.error != []
  {
    match reply
    case Fetched(data) => st.(employees := if data.Some? then data.value else [], loading := false)
    case FetchFailed => st.(error := LoadFailedMessage, loading := false)
    case FetchThrew => st.(error := UnexpectedMessage, loading := false)
  }

  /** The state after a save whose checks passed: the update is sent and
      both messages cleared; its failure is reported by code, its success
      is announced and the list reloaded; the saving flag ends lowered. */
  function Saved(st: PageState, employeeId: string, reply: WriteReply, reload: FetchReply): (r: PageState)
    ensures r.writes == st.writes + [UpdateUser(employeeId, st.editUsername, st.editPassword)]
    ensures !r.updating
    ensures r.editingId == st.editingId && r.editUsername == st.editUsername && r.editPassword == st.editPassword
    ensures r.updateSuccess == (if reply.WriteOk? then UpdatedMessage else [])
    ensures r.updateError == match reply
      case WriteOk => []
      case WriteFailed(code) => UpdateErrorMessage(code)
      case WriteThrew => UnexpectedMessage
    ensures !reply.WriteOk? ==> r.employees == st.employees && r.loading == st.loading && r.error == st.error
  {
    var sent := st.(writes := st.writes + [UpdateUser(employeeId, st.editUsername, st.editPassword)],
                    updateError := [], updateSuccess := [], updating := false);
    match reply
    case WriteFailed(code) => sent.(updateError := UpdateErrorMessage(code))
    case WriteThrew => sent.(updateError := UnexpectedMessage)
    case WriteOk => Reloaded(sent.(updateSuccess := UpdatedMessage), reload)
  }

  /** The state after a confirmed delete of `e`: a failure keeps the dialog
      open and sets the error; a success announces it, reloads the list and
      closes the dialog; the deleting flag ends lowered. */
  function Deleted(st: PageState, e: Employee, reply: WriteReply, reload: FetchReply): (r: PageState)
    ensures r.writes == st.writes + [DeleteUser(e.id)]
    ensures !r.deleting
    ensures r.editingId == st.editingId && r.editUsername == st.editUsername && r.editPassword == st.editPassword
    ensures reply.WriteOk? ==> r.employeeToDelete == None && !r.deleteModalOpen && r.updateSuccess == DeletedMessage
    ensures reply.WriteOk? ==> r.updateError == st.updateError
    ensures !reply.WriteOk? ==>
      && r.employeeToDelete == st.employeeToDelete && r.deleteModalOpen == st.deleteModalOpen
      && r.updateSuccess == st.updateSuccess && r.employees == st.employees
      && r.updateError == (if reply.WriteThrew? then UnexpectedMessage else DeleteFailedMessage)
  {
    var sent := st.(writes := st.writes + [DeleteUser(e.id)], deleting := false);
    match reply
    case WriteFailed(_) => sent.(updateError := DeleteFailedMessage)
    case WriteThrew => sent.(updateError := UnexpectedMessage)
    case WriteOk => Reloaded(sent.(updateSuccess := DeletedMessage), reload).(employeeToDelete := None, deleteModalOpen := false)
  }

  class Page {
    var employees: seq<Employee>
    var loading: bool
    var searchTerm: string
    var error: string
    var editingId: Option<string>
    var editUsername: string
    var editPassword: string
    var showPasswords: map<string, bool>
    var updateError: string
    var updateSuccess: string
    var updating: bool
    var deleteModalOpen: bool
    var employeeToDelete: Option<Employee>
    var deleting: bool
    ghost var writes: seq<StoreWrite>

    /** The page's whole state as one value. */
    ghost function State(): PageState
      reads this
    {
      PageState(employees, loading, searchTerm, error, editingId, editUsername, editPassword,
                showPasswords, updateError, updateSuccess, updating, deleteModalOpen,
                employeeToDelete, deleting, writes)
    }

    constructor ()
      ensures State() == PageState([], true, [], [], None, [], [], map[], [], [], false, false, None, false, [])
    {
      employees, loading, searchTerm, error := [], true, [], [];
      editingId, editUsername, editPassword := None, [], [];
      showPasswords, updateError, updateSuccess, updating := map[], [], [], false;
      deleteModalOpen, employeeToDelete, deleting := false, None, false;
      writes := [];
    }

    /** The rows the list shows. */
    function Visible(): seq<Employee>
      reads this
    {
      FilterEmployees(employees, searchTerm)
    }

    /** Loading the employee list. */
    method FetchEmployees(reply: FetchReply)
      modifies this
      ensures State() == Reloaded(old(State()), reply)
    {
      match reply {
        case Fetched(data) =>
          employees := if data.Some? then data.value else [];
        case FetchFailed =>
          error := LoadFailedMessage;
        case FetchThrew =>
          error := UnexpectedMessage;
      }
      loading := false;
    }

    /** Typing a search term changes only the term, and so the rows shown. */
    method SetSearchTerm(term: string)
      modifies this
      ensures State() == old(State()).(searchTerm := term)
      ensures Visible() == FilterEmployees(employees, term)
    {
      searchTerm := term;
    }

    /** The eye button of one row flips that row's password visibility and
        no other. */
    method TogglePasswordVisibility(id: string)
      modifies this
      ensures State() == old(State()).(showPasswords := ToggleFlag(old(showPasswords), id))
    {
      showPasswords := ToggleFlag(showPasswords, id);
    }

    /** Editing a row copies its username and password into the edit fields
        and clears both messages. */
    method StartEditing(e: Employee)
      modifies this
      ensures State() == old(State()).(editingId := Some(e.id), editUsername := e.username,
        editPassword := e.passwordHash, updateError := [], updateSuccess := [])
    {
      editingId, editUsername, editPassword := Some(e.id), e.username, e.passwordHash;
      updateError, updateSuccess := [], [];
    }

    /** Cancelling (also run 1.5 s after a successful save) leaves edit mode
        and empties the fields and both messages. */
    method CancelEditing()
      modifies this
      ensures State() == old(State()).(editingId := None, editUsername := [], editPassword := [],
        updateError := [], updateSuccess := [])
    {
      editingId, editUsername, editPassword := None, [], [];
      updateError, updateSuccess := [], [];
    }

    /** Typing into the edit fields. */
    method EditFields(username: string, password: string)
      modifies this
      ensures State() == old(State()).(editUsername := username, editPassword := password)
    {
      editUsername, editPassword := username, password;
    }

    /** Saving an edit. A failed check only sets the error: nothing is sent
        and the success message is left as it was. Otherwise the update is
        sent and its reply decides the messages; a success reloads the list. */
    method SaveChanges(employeeId: string, reply: WriteReply, reload: FetchReply)
      modifies this
      ensures var check := CheckEdit(old(editUsername), old(editPassword));
        check.Some? ==> State() == old(State()).(updateError := check.value)
      ensures CheckEdit(old(editUsername), old(editPassword)).None? ==>
        State() == Saved(old(State()), employeeId, reply, reload)
    {
      var check := CheckEdit(editUsername, editPassword);
      if check.Some? {
        updateError := check.value;
        return;
      }
      BeginUpdate(employeeId);
      match reply {
        case WriteFailed(code) =>
          updateError := UpdateErrorMessage(code);
        case WriteThrew =>
          updateError := UnexpectedMessage;
        case WriteOk =>
          updateSuccess := UpdatedMessage;
          FetchEmployees(reload);
      }
      updating := false;
    }

    /** Raising the saving flag, clearing both messages and sending the
        update. */
    method BeginUpdate(employeeId: string)
      modifies this
      ensures State() == old(State()).(updating := true, updateError := [], updateSuccess := [],
        writes := old(writes) + [UpdateUser(employeeId, old(editUsername), old(editPassword))])
    {
      updating, updateError, updateSuccess := true, [], [];
      writes := writes + [UpdateUser(employeeId, editUsername, editPassword)];
    }

    method OpenDeleteModal(e: Employee)
      modifies this
      ensures State() == old(State()).(employeeToDelete := Some(e), deleteModalOpen := true)
    {
      employeeToDelete, deleteModalOpen := Some(e), true;
    }

    method CloseDeleteModal()
      modifies this
      ensures State() == old(State()).(employeeToDelete := None, deleteModalOpen := false)
    {
      employeeToDelete, deleteModalOpen := None, false;
    }

    /** Raising the deleting flag and sending the delete of `e`. */
    method BeginDelete(e: Employee)
      modifies this
      ensures State() == old(State()).(deleting := true, writes := old(writes) + [DeleteUser(e.id)])
    {
      deleting := true;
      writes := writes + [DeleteUser(e.id)];
    }

    /** Confirming a delete: with no employee selected nothing happens. */
    method ConfirmDelete(reply: WriteReply, reload: FetchReply)
      modifies this
      ensures old(employeeToDelete).None? ==> unchanged(this)
      ensures old(employeeToDelete).Some? ==>
        State() == Deleted(old(State()), old(employeeToDelete).value, reply, reload)
    {
      if employeeToDelete.None? {
        return;
      }
      BeginDelete(employeeToDelete.value);
      match reply {
        case WriteFailed(_) =>
          updateError := DeleteFailedMessage;
        case WriteThrew =>
          updateError := UnexpectedMessage;
        case WriteOk =>
          updateSuccess := DeletedMessage;
          FetchEmployees(reload);
          CloseDeleteModal();
      }
      deleting := false;
    }
  }
}
