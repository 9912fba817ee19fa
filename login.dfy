/**
 * The sign-in form (src/components/Login.tsx): per-field presence checks, the lookup in
 * the credential list, and the session keys written to localStorage on success.
 */
module Login {
  import opened Wrappers
  import opened MockData
  import opened SessionJson
  import opened Storage

  const EmailRequired: string := "Email is required."
  const PasswordRequired: string := "Password is required."
  const SelectRoleFirst: string := "Please select a role first."
  const InvalidCredentials: string := "Invalid email or password."

  /**
   * The `errors` state: each key is absent (None) or holds a message; editing a field
   * keeps the key but empties its message.
   */
  datatype FieldErrors = FieldErrors(email: Option<string>, password: Option<string>)

  const NoErrors: FieldErrors := FieldErrors(None, None)

  /** `errors.email && <p>…</p>`: a message is shown only when present and non-empty. */
  predicate Shown(message: Option<string>) {
    message.Some? && message.value != ""
  }

  /** `validate()`: an email error exactly when the email is empty, a password error exactly when the password is. */
  function Validate(email: string, password: string): (e: FieldErrors)
    ensures e.email.Some? <==> email == ""
    ensures e.password.Some? <==> password == ""
    ensures e.email.Some? ==> e.email.value == EmailRequired && Shown(e.email)
    ensures e.password.Some? ==> e.password.value == PasswordRequired && Shown(e.password)
  {
    FieldErrors(
      if email == "" then Some(EmailRequired) else None,
      if password == "" then Some(PasswordRequired) else None)
  }

  /** `Object.keys(validationErrors).length > 0`. */
  predicate HasKeys(e: FieldErrors) {
    e.email.Some? || e.password.Some?
  }

  /** The `users.find` predicate: role, email and password all equal. */
  predicate Matches(u: User, role: string, email: string, password: string) {
    RoleName(u.role) == role && u.email == email && u.password == password
  }

  /** No record before position `k` matches. */
  predicate NoMatchBefore(users: seq<User>, k: int, role: string, email: string, password: string)
    requires 0 <= k <= |users|
  {
    forall j :: 0 <= j < k ==> !Matches(users[j], role, email, password)
  }

  /** `users.find(...)`: the first matching record, or nothing. */
  function FindUser(users: seq<User>, role: string, email: string, password: string): (r: Option<User>)
    ensures r.Some? ==> r.value in users && Matches(r.value, role, email, password)
    ensures r.None? <==> forall u :: u in users ==> !Matches(u, role, email, password)
    ensures users != [] && Matches(users[0], role, email, password) ==> r == Some(users[0])
    ensures r.Some? ==> exists k :: 0 <= k < |users| && users[k] == r.value
                                    && NoMatchBefore(users, k, role, email, password)
  {
    if users == [] then None
    else if Matches(users[0], role, email, password) then
      assert NoMatchBefore(users, 0, role, email, password);
      Some(users[0])
    else
      var rest := users[1..];
      var r := FindUser(rest, role, email, password);
      assert forall u :: u in users ==> u == users[0] || u in rest;
      assert r.Some? ==> exists k :: 0 <= k < |users| && users[k] == r.value
                                     && NoMatchBefore(users, k, role, email, password) by {
        if r.Some? {
          var k :| 0 <= k < |rest| && rest[k] == r.value && NoMatchBefore(rest, k, role, email, password);
          assert users[k + 1] == r.value;
          assert NoMatchBefore(users, k + 1, role, email, password) by {
            forall j | 0 <= j < k + 1 ensures !Matches(users[j], role, email, password) {
              if j > 0 { assert users[j] == rest[j - 1]; }
            }
          }
        }
      }
      r
  }


  /** Because emails are distinct, at most one record matches any role, email and password. */
  lemma AtMostOneMatch(u: User, v: User, role: string, email: string, password: string)
    requires u in Users && v in Users
    requires Matches(u, role, email, password) && Matches(v, role, email, password)
    ensures u == v
  {
    CredentialList();
  }

  /** What a press of the sign-in button ends in. */
  datatype SignInOutcome =
    | Rejected(errors: FieldErrors)
    | RoleMissing(message: string)
    | Denied(message: string)
    | SignedIn(user: User, route: string)

  /** The decision `signIn()` takes on the current form values. */
  function Attempt(role: string, email: string, password: string): (o: SignInOutcome)
    ensures o.Rejected? <==> email == "" || password == ""
    ensures o.Rejected? ==> o.errors == Validate(email, password)
    ensures o.RoleMissing? <==> email != "" && password != "" && role == ""
    ensures o.RoleMissing? ==> o.message == SelectRoleFirst
    ensures o.SignedIn? ==> o.user in Users && Matches(o.user, role, email, password)
    ensures o.SignedIn? ==> o.route == "/" + role
    ensures o.Denied? <==> (email != "" && password != "" && role != ""
                            && forall u :: u in Users ==> !Matches(u, role, email, password))
    ensures o.Denied? ==> o.message == InvalidCredentials
  {
    var errs := Validate(email, password);
    if HasKeys(errs) then Rejected(errs)
    else if role == "" then RoleMissing(SelectRoleFirst)
    else
      match FindUser(Users, role, email, password)
      case Some(u) => SignedIn(u, "/" + RoleName(u.role))
      case None => Denied(InvalidCredentials)
  }

  /** The demo admin credentials sign in and land on the admin view. */
  lemma AdminCredentialsSignIn()
    ensures Attempt("admin", "admin@testmagic.com", "admin123") == SignedIn(Users[0], "/admin")
  {
  }

  /** The same email with any other non-empty password gets the generic failure. */
  lemma WrongPasswordDenied(password: string)
    requires password != "" && password != "admin123"
    ensures Attempt("admin", "admin@testmagic.com", password) == Denied(InvalidCredentials)
  {
  }

  /** An empty email with a password is reported on the email field only. */
  lemma EmptyEmailOnly(role: string, password: string)
    requires password != ""
    ensures Attempt(role, "", password) == Rejected(FieldErrors(Some(EmailRequired), None))
  {
  }

  const LoggedInUserKey: string := "loggedInUser"
  const UserRoleKey: string := "userRole"
  const UserEmailKey: string := "userEmail"

  /** Three `setItem` calls leave every other key as it was. */
  lemma ThreeWritesKeepOthers(items: map<string, string>, a: string, b: string, c: string)
    ensures forall k :: (k in items && k != LoggedInUserKey && k != UserRoleKey && k != UserEmailKey
                         ==> k in items[LoggedInUserKey := a][UserRoleKey := b][UserEmailKey := c]
                             && items[LoggedInUserKey := a][UserRoleKey := b][UserEmailKey := c][k] == items[k])
  {
  }

  /** The three `setItem` calls made on success. */
  function SessionWrites(items: map<string, string>, u: User): (r: map<string, string>)
    ensures r.Keys == items.Keys + {LoggedInUserKey, UserRoleKey, UserEmailKey}
    ensures Decode(r[LoggedInUserKey]) == Some(SessionRecord(u.email, RoleName(u.role)))
    ensures r[UserRoleKey] == RoleName(u.role) && r[UserEmailKey] == u.email
    ensures forall k :: (k in items && k != LoggedInUserKey && k != UserRoleKey && k != UserEmailKey
                         ==> r[k] == items[k])
  {
    var rec := SessionRecord(u.email, RoleName(u.role));
    var text := Encode(rec);
    DecodeEncode(rec);
    assert LoggedInUserKey != UserRoleKey && LoggedInUserKey != UserEmailKey && UserRoleKey != UserEmailKey;
    ThreeWritesKeepOthers(items, text, rec.role, rec.email);
    var r := items[LoggedInUserKey := text][UserRoleKey := rec.role][UserEmailKey := rec.email];
    assert r[LoggedInUserKey] == text;
    r
  }

  /** The `setItem` calls themselves. */
  method WriteSession(store: LocalStorage, u: User)
    modifies store
    ensures store.items == SessionWrites(old(store.items), u)
  {
    store.SetItem(LoggedInUserKey, Encode(SessionRecord(u.email, RoleName(u.role))));
    store.SetItem(UserRoleKey, RoleName(u.role));
    store.SetItem(UserEmailKey, u.email);
  }

  /** The form state held in `useState`. */
  class LoginForm {
    var selectedRole: string
    var enteredEmail: string
    var enteredPassword: string
    var errors: FieldErrors

    constructor ()
      ensures selectedRole == "admin" && enteredEmail == "" && enteredPassword == ""
      ensures errors == NoErrors
    {
      selectedRole := "admin";
      enteredEmail := "";
      enteredPassword := "";
      errors := NoErrors;
    }

    /** A role tab was clicked. */
    method SelectRole(r: Role)
      modifies this
      ensures selectedRole == RoleName(r)
      ensures enteredEmail == old(enteredEmail) && enteredPassword == old(enteredPassword)
      ensures errors == old(errors)
    {
      selectedRole := RoleName(r);
    }

    /** Typing in the email field clears only the email message. */
    method EditEmail(value: string)
      modifies this
      ensures enteredEmail == value
      ensures errors == FieldErrors(Some(""), old(errors).password)
      ensures !Shown(errors.email)
      ensures selectedRole == old(selectedRole) && enteredPassword == old(enteredPassword)
    {
      enteredEmail := value;
      errors := errors.(email := Some(""));
    }

    /** Typing in the password field clears only the password message. */
    method EditPassword(value: string)
      modifies this
      ensures enteredPassword == value
      ensures errors == FieldErrors(old(errors).email, Some(""))
      ensures !Shown(errors.password)
      ensures selectedRole == old(selectedRole) && enteredEmail == old(enteredEmail)
    {
      enteredPassword := value;
      errors := errors.(password := Some(""));
    }

    /**
     * `signIn()`: presence errors are stored and nothing else happens; a missing role or a
     * failed lookup writes nothing; a match writes the session keys and names the landing route.
     */
    method SignIn(store: LocalStorage) returns (outcome: SignInOutcome)
      modifies this, store
      ensures outcome == Attempt(old(selectedRole), old(enteredEmail), old(enteredPassword))
      ensures errors == if outcome.Rejected? then outcome.errors else old(errors)
      ensures store.items == if outcome.SignedIn? then SessionWrites(old(store.items), outcome.user)
                             else old(store.items)
      ensures selectedRole == old(selectedRole)
      ensures enteredEmail == old(enteredEmail) && enteredPassword == old(enteredPassword)
    {
      outcome := Attempt(selectedRole, enteredEmail, enteredPassword);
      match outcome
      case Rejected(validationErrors) =>
        errors := validationErrors;
      case SignedIn(u, _) =>
        WriteSession(store, u);
      case _ =>
    }
  }
}
