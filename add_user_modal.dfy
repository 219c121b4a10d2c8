/** The administrator's "Add New User" form: required-field validation, then
  * account sign-up, then the `users` row with the hashed password, then a
  * form reset. */
module AddUserModal {
  import opened Wrappers
  import opened Users

  const FormKeys: seq<string> := ["username", "userfirstName", "userlastName", "email", "role", "password"]

  /** The fields the form insists on; the password is not one of them. */
  const RequiredFields: seq<string> := ["username", "userfirstName", "userlastName", "email", "role"]

  const RequiredMessage := "Please fill in all required fields"
  const VerifyMessage := " Please verify your email and try again."

  /** A form field as the form reads it: absent reads as empty. */
  function Field(data: map<string, string>, key: string): string
  {
    if key in data then data[key] else ""
  }

  /** Whether every key of `keys` holds a non-empty value. */
  function AllFilled(data: map<string, string>, keys: seq<string>): (ok: bool)
    ensures ok <==> forall i :: 0 <= i < |keys| ==> Field(data, keys[i]) != ""
  {
    if keys == [] then true
    else Field(data, keys[0]) != "" && AllFilled(data, keys[1..])
  }

  /** The password does not take part in the required-field check. */
  lemma PasswordNotRequired(data: map<string, string>, password: string)
    ensures AllFilled(data["password" := password], RequiredFields) == AllFilled(data, RequiredFields)
  {
    var d := data["password" := password];
    forall i | 0 <= i < |RequiredFields|
      ensures Field(d, RequiredFields[i]) == Field(data, RequiredFields[i])
    {
      assert RequiredFields[i] != "password";
    }
  }

  /** The blank form the modal opens with and returns to. */
  function EmptyForm(): (m: map<string, string>)
    ensures forall k :: k in m <==> k in FormKeys
    ensures forall k :: k in m ==> m[k] == ""
    ensures !AllFilled(m, RequiredFields)
  {
    map k | k in FormKeys :: ""
  }

  /** The answer of the auth service's sign-up: an error message, or a user
    * whose id may be missing (email confirmation pending). */
  datatype SignUp = SignUpError(message: string) | SignedUp(authId: Option<string>)

  /** The row inserted for a new user: the form's fields, the auth id, and
    * `hash` of the password in place of the password. */
  function NewUserRow(data: map<string, string>, authId: string, hash: string -> string): (r: UserRow)
    ensures r.auth_id == Some(authId)
    ensures r.password == Some(hash(Field(data, "password")))
    ensures r.username == Some(Field(data, "username")) && r.email == Some(Field(data, "email"))
    ensures r.userfirstName == Some(Field(data, "userfirstName")) && r.userlastName == Some(Field(data, "userlastName"))
    ensures r.role == Some(Field(data, "role"))
    ensures r.active.None? && r.privacy_agreement.None? && r.privacy_agreed_at.None?
  {
    UserRow(Some(authId), Some(Field(data, "username")), Some(Field(data, "email")),
            Some(Field(data, "userfirstName")), Some(Field(data, "userlastName")),
            Some(Field(data, "role")), None, None, None, Some(hash(Field(data, "password"))))
  }

  class UserForm {
    var userData: map<string, string>
    var error: Option<string>

    constructor ()
      ensures userData == EmptyForm() && error == None
    {
      userData := EmptyForm();
      error := None;
    }

    /** `handleChange`: the spread sets one key and keeps the rest. */
    method HandleChange(key: string, value: string)
      modifies this
      ensures userData == old(userData)[key := value]
      ensures error == old(error)
    {
      userData := userData[key := value];
    }

    /** `handleSave`. `signUp` is the auth service's answer, `hash` the
      * password hash, `insertFails`/`insertMessage` the insert's error.
      * `calledSignUp` says whether sign-up was reached. */
    method HandleSave(users: UserTable, signUp: SignUp, hash: string -> string,
                      insertFails: bool, insertMessage: string)
      returns (calledSignUp: bool)
      modifies this, users
      ensures calledSignUp <==> AllFilled(old(userData), RequiredFields)
      // a missing required field stops everything
      ensures !calledSignUp ==>
                error == Some(RequiredMessage) && users.rows == old(users.rows) && userData == old(userData)
      // a sign-up error, or no auth id, stops before the insert
      ensures calledSignUp && signUp.SignUpError? ==>
                error == Some(signUp.message) && users.rows == old(users.rows) && userData == old(userData)
      ensures calledSignUp && signUp.SignedUp? && !Filled(signUp.authId) ==>
                error == Some(VerifyMessage) && users.rows == old(users.rows) && userData == old(userData)
      // the insert: on failure its message, on success the row and a blank form
      ensures calledSignUp && signUp.SignedUp? && Filled(signUp.authId) ==>
                if insertFails then
                  error == Some(insertMessage) && users.rows == old(users.rows) && userData == old(userData)
                else
                  && users.rows == old(users.rows) + [NewUserRow(old(userData), signUp.authId.value, hash)]
                  && userData == EmptyForm() && error == None
    {
      error := None;
      if !AllFilled(userData, RequiredFields) {
        error := Some(RequiredMessage);
        return false;
      }
      calledSignUp := true;
      if signUp.SignUpError? {
        error := Some(signUp.message);
        return;
      }
      if !Filled(signUp.authId) {
        error := Some(VerifyMessage);
        return;
      }
      var row := NewUserRow(userData, signUp.authId.value, hash);
      var ok := users.Insert(row, insertFails);
      if !ok {
        error := Some(insertMessage);
      } else {
        userData := EmptyForm();
      }
    }
  }
}
