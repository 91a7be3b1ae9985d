/** The admin's "register employee" form: its password checks, the mapping
    of store errors to messages, and the form state a submission leaves. */
module RegisterEmployee {
  import opened Text

  /** The store's answer to an insert into the users table. */
  datatype InsertReply = Inserted(id: string) | InsertFailed(code: string) | InsertThrew

  /** The store's answer to the employee_info insert: an error it returns
      is only logged, a throw is caught like any other. */
  datatype InfoReply = InfoOk | InfoFailed(code: string) | InfoThrew

  /** The writes a submission issues to the store. */
  datatype StoreWrite =
    | InsertUser(username: string, password: string, role: string)
    | InsertEmployeeInfo(userId: string)

  const MismatchMessage := "Passwords do not match"
  const TooShortMessage := "Password must be at least 6 characters"
  const DuplicateMessage := "Username already exists"
  const RegisterFailedMessage := "Failed to register employee"
  const UnexpectedMessage := "An unexpected error occurred"
  const RegisteredMessage := "Employee registered successfully"

  /** The unique-violation error code of the store. */
  const UniqueViolation := "23505"

  /** The checks made before anything is sent: the confirmation must match,
      then the password must be at least six UTF-16 code units long. A
      mismatch is reported even when the password is also too short. */
  function CheckPasswords(password: string, confirmation: string): (e: Option<string>)
    ensures e.None? <==> password == confirmation && Utf16Length(password) >= 6
    ensures password != confirmation ==> e == Some(MismatchMessage)
    ensures password == confirmation && Utf16Length(password) < 6 ==> e == Some(TooShortMessage)
  {
    if password != confirmation then Some(MismatchMessage)
    else if Utf16Length(password) < 6 then Some(TooShortMessage)
    else None
  }

  /** The length rule counts code units, not characters: three emoji are
      six units, so a three-character password passes. */
  lemma AstralPasswordLength()
    ensures var p := "\U{1F600}\U{1F600}\U{1F600}"; |p| == 3 && CheckPasswords(p, p) == None
  {
  }

  /** The message for a failed insert: a duplicate username is named as
      such, every other code reads as a generic failure. */
  function InsertErrorMessage(code: string): (m: string)
    ensures m == DuplicateMessage <==> code == UniqueViolation
    ensures m != DuplicateMessage ==> m == RegisterFailedMessage
  {
    if code == UniqueViolation then DuplicateMessage else RegisterFailedMessage
  }

  class RegisterForm {
    var username: string
    var password: string
    var confirmPassword: string
    var error: string
    var success: string
    var loading: bool
    ghost var writes: seq<StoreWrite>

    constructor ()
      ensures username == [] && password == [] && confirmPassword == []
      ensures error == [] && success == [] && !loading && writes == []
    {
      username, password, confirmPassword := [], [], [];
      error, success, loading := [], [], false;
      writes := [];
    }

    /** Typing into one of the three fields. */
    method Type(newUsername: string, newPassword: string, newConfirmation: string)
      modifies this
      ensures username == newUsername && password == newPassword && confirmPassword == newConfirmation
      ensures error == old(error) && success == old(success) && loading == old(loading) && writes == old(writes)
    {
      username, password, confirmPassword := newUsername, newPassword, newConfirmation;
    }

    /** A submission. Both messages are cleared first. A failed check sends
        nothing. Otherwise the user is inserted with the employee role; on
        success an employee_info row is inserted too. An error returned by
        that second insert does not change the outcome: the success message
        is shown and the three fields are emptied. A throw from it is caught:
        the generic message is shown and the fields are kept. */
    method Submit(userReply: InsertReply, infoReply: InfoReply)
      modifies this
      ensures var check := CheckPasswords(old(password), old(confirmPassword));
        check.Some? ==>
          && error == check.value && success == []
          && writes == old(writes) && loading == old(loading)
          && username == old(username) && password == old(password) && confirmPassword == old(confirmPassword)
      ensures CheckPasswords(old(password), old(confirmPassword)).None? ==> !loading
      ensures CheckPasswords(old(password), old(confirmPassword)).None? && userReply.Inserted? ==>
          writes == old(writes) + [InsertUser(old(username), old(password), "employee"), InsertEmployeeInfo(userReply.id)]
      ensures CheckPasswords(old(password), old(confirmPassword)).None? && userReply.Inserted? && !infoReply.InfoThrew? ==>
          && success == RegisteredMessage && error == []
          && username == [] && password == [] && confirmPassword == []
      ensures CheckPasswords(old(password), old(confirmPassword)).None? && userReply.Inserted? && infoReply.InfoThrew? ==>
          && success == [] && error == UnexpectedMessage
          && username == old(username) && password == old(password) && confirmPassword == old(confirmPassword)
      ensures CheckPasswords(old(password), old(confirmPassword)).None? && !userReply.Inserted? ==>
          && writes == old(writes) + [InsertUser(old(username), old(password), "employee")]
          && success == []
          && error == (if userReply.InsertFailed? then InsertErrorMessage(userReply.code) else UnexpectedMessage)
          && username == old(username) && password == old(password) && confirmPassword == old(confirmPassword)
    {
      error := [];
      success := [];
      var check := CheckPasswords(password, confirmPassword);
      if check.Some? {
        error := check.value;
        return;
      }
      loading := true;
      writes := writes + [InsertUser(username, password, "employee")];
      match userReply {
        case InsertFailed(code) =>
          error := InsertErrorMessage(code);
        case InsertThrew =>
          error := UnexpectedMessage;
        case Inserted(id) =>
          writes := writes + [InsertEmployeeInfo(id)];
          if infoReply.InfoThrew? {
            error := UnexpectedMessage;
          } else {
            success := RegisteredMessage;
            username, password, confirmPassword := [], [], [];
          }
      }
      loading := false;
    }
  }
}
