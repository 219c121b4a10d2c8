/** The OAuth sign-in callback: reconcile the signed-in identity with the
  * `users` table (link the auth id, refuse deactivated accounts, create new
  * accounts, record the privacy agreement) and choose where to go. */
module AuthCallback {
  import opened Wrappers
  import opened Seqs
  import opened Strings
  import opened Users

  /** The signed-in identity: its id, email and the provider's full name. */
  datatype SessionUser = SessionUser(id: string, email: string, fullName: Option<string>)

  /** Which store requests report an error. */
  datatype OAuthFaults = OAuthFaults(lookup: bool, authIdUpdate: bool, insert: bool, privacyUpdate: bool)

  /** Where the callback sends the browser, whether it signed the user out,
    * and the message it shows. */
  datatype Redirect = Redirect(path: string, signedOut: bool, message: string)

  const DeactivatedMessage := "Your account has been deactivated. Please contact an administrator."

  const ToRoot := Redirect("/", false, "")

  const AdminRoles: seq<string> := ["admin", "healthworker", "socialworker", "school"]
  const UserRoles: seq<string> := ["teenager"]

  /** The routing decision for a role; only teenagers go home. */
  function RouteFor(role: Option<string>): (path: string)
    ensures path == (if role == Some("teenager") then "/home" else "/admin")
  {
    if role.Some? && role.value in AdminRoles then "/admin"
    else if role.Some? && role.value in UserRoles then "/home"
    else if role == Some("teenager") then assert false; "/home"
    else "/admin"
  }

  /** `full_name || email.split('@')[0] || 'New User'`. */
  function NewUsername(u: SessionUser): (name: string)
    ensures name != ""
    ensures Filled(u.fullName) ==> name == u.fullName.value
    ensures !Filled(u.fullName) ==> '@' !in name && (name == "New User" || StartsWith(u.email, name))
  {
    if Filled(u.fullName) then u.fullName.value
    else if Before(u.email, '@') != "" then Before(u.email, '@')
    else "New User"
  }

  function NewAccount(u: SessionUser, now: string): UserRow
  {
    UserRow(Some(u.id), Some(NewUsername(u)), Some(u.email), None, None, Some("teenager"),
            Some(true), Some(true), Some(now), None)
  }

  function SetAuthId(id: string): UserRow -> UserRow
  {
    (r: UserRow) => r.(auth_id := Some(id))
  }

  function AgreePrivacy(now: string): UserRow -> UserRow
  {
    (r: UserRow) => r.(privacy_agreement := Some(true), privacy_agreed_at := Some(now))
  }

  /** The `users` table and the redirect after the callback. */
  function OAuthOutcome(rows: seq<UserRow>, user: Option<SessionUser>, now: string, f: OAuthFaults): (o: (seq<UserRow>, Redirect))
    // no session, or a failed lookup: back to the start with no writes
    ensures user.None? ==> o == (rows, ToRoot)
    ensures user.Some? && MaybeSingle(Filter(rows, HasEmail(user.value.email)), f.lookup) == LookupError ==>
              o == (rows, ToRoot)
    // a new account: one teenager row, active and with the privacy agreement
    ensures user.Some? && MaybeSingle(Filter(rows, HasEmail(user.value.email)), f.lookup) == NotFound ==>
              if f.insert then o == (rows, ToRoot)
              else o.0 == rows + [NewAccount(user.value, now)] && o.1 == Redirect("/home", false, "")
    // an existing account without an auth id gets it before anything else,
    // deactivated or not
    ensures user.Some? && MaybeSingle(Filter(rows, HasEmail(user.value.email)), f.lookup).Found? ==>
              var acct := MaybeSingle(Filter(rows, HasEmail(user.value.email)), f.lookup).row;
              if !Filled(acct.auth_id) && f.authIdUpdate then o == (rows, ToRoot)
              else
                && |o.0| == |rows|
                && (!Filled(acct.auth_id) ==>
                      forall i :: 0 <= i < |rows| && rows[i].email == Some(user.value.email) ==>
                        o.0[i].auth_id == Some(user.value.id))
                // only an explicit `active: false` blocks, and it signs out
                && (o.1.signedOut <==> acct.active == Some(false))
                && (acct.active == Some(false) ==> o.1 == Redirect("/", true, DeactivatedMessage))
                // otherwise routing follows the role, whatever the privacy
                // update did
                && (acct.active != Some(false) ==> o.1 == Redirect(RouteFor(acct.role), false, ""))
    // rows with another email are untouched; the account's row changes only in
    // its auth id (when it had none) and its privacy columns (when an active
    // account had not agreed and the update went through)
    ensures user.Some? && MaybeSingle(Filter(rows, HasEmail(user.value.email)), f.lookup).Found? ==>
              var u := user.value;
              var acct := MaybeSingle(Filter(rows, HasEmail(u.email)), f.lookup).row;
              var agrees := acct.active != Some(false) && acct.privacy_agreement != Some(true) && !f.privacyUpdate;
              !(!Filled(acct.auth_id) && f.authIdUpdate) ==>
                && (forall i :: 0 <= i < |rows| && rows[i].email != Some(u.email) ==> o.0[i] == rows[i])
                && (forall i :: 0 <= i < |rows| && rows[i].email == Some(u.email) ==>
                      o.0[i] == rows[i].(auth_id := if Filled(acct.auth_id) then rows[i].auth_id else Some(u.id),
                                         privacy_agreement := if agrees then Some(true) else rows[i].privacy_agreement,
                                         privacy_agreed_at := if agrees then Some(now) else rows[i].privacy_agreed_at))
  {
    if user.None? then (rows, ToRoot)
    else
      var u := user.value;
      match MaybeSingle(Filter(rows, HasEmail(u.email)), f.lookup)
      case LookupError => (rows, ToRoot)
      case NotFound =>
        if f.insert then (rows, ToRoot)
        else (rows + [NewAccount(u, now)], Redirect(RouteFor(Some("teenager")), false, ""))
      case Found(acct) =>
        if !Filled(acct.auth_id) && f.authIdUpdate then (rows, ToRoot)
        else
          var rows1 := if !Filled(acct.auth_id) then UpdateWhere(rows, HasEmail(u.email), SetAuthId(u.id)) else rows;
          if acct.active == Some(false) then (rows1, Redirect("/", true, DeactivatedMessage))
          else
            var rows2 := if acct.privacy_agreement != Some(true) && !f.privacyUpdate
                         then UpdateWhere(rows1, HasEmail(u.email), AgreePrivacy(now))
                         else rows1;
            (rows2, Redirect(RouteFor(acct.role), false, ""))
  }

  /** After a successful reconciliation of an active existing account, every
    * row with the user's email has agreed to the privacy terms, unless the
    * privacy update failed. */
  lemma PrivacyRecorded(rows: seq<UserRow>, u: SessionUser, now: string, f: OAuthFaults)
    requires MaybeSingle(Filter(rows, HasEmail(u.email)), f.lookup).Found?
    requires !f.authIdUpdate && !f.privacyUpdate
    requires MaybeSingle(Filter(rows, HasEmail(u.email)), f.lookup).row.active != Some(false)
    ensures var o := OAuthOutcome(rows, Some(u), now, f).0;
            forall i :: 0 <= i < |o| && o[i].email == Some(u.email) ==> o[i].privacy_agreement == Some(true)
  {
    var matches := Filter(rows, HasEmail(u.email));
    var acct := MaybeSingle(matches, f.lookup).row;
    if acct.privacy_agreement == Some(true) {
      var o := OAuthOutcome(rows, Some(u), now, f).0;
      forall i | 0 <= i < |o| && o[i].email == Some(u.email)
        ensures o[i].privacy_agreement == Some(true)
      {
        // the only row with this email is the account found
        assert HasEmail(u.email)(rows[i]);
        assert rows[i] in matches;
        assert rows[i] == acct;
      }
    }
  }

  /** `handleOAuth` against the `users` table; `user` is the session's
    * identity, `now` the time stamp recorded with the privacy agreement. */
  method HandleOAuth(users: UserTable, user: Option<SessionUser>, now: string, f: OAuthFaults)
    returns (r: Redirect)
    modifies users
    ensures (users.rows, r) == OAuthOutcome(old(users.rows), user, now, f)
  {
    if user.None? {
      return ToRoot;
    }
    var u := user.value;
    var existingAccount := users.FindByEmail(u.email, f.lookup);
    if existingAccount == LookupError {
      return ToRoot;
    }
    if existingAccount.Found? && !Filled(existingAccount.row.auth_id) {
      var ok, _ := users.Update(HasEmail(u.email), SetAuthId(u.id), f.authIdUpdate);
      if !ok {
        return ToRoot;
      }
    }
    if existingAccount.Found? && existingAccount.row.active == Some(false) {
      return Redirect("/", true, DeactivatedMessage);
    }
    var userRole := if existingAccount.Found? then existingAccount.row.role else None;
    if existingAccount == NotFound {
      var ok := users.Insert(NewAccount(u, now), f.insert);
      if !ok {
        return ToRoot;
      }
      userRole := Some("teenager");
    } else if existingAccount.row.privacy_agreement != Some(true) {
      // a failed privacy update is only logged
      var _, _ := users.Update(HasEmail(u.email), AgreePrivacy(now), f.privacyUpdate);
    }
    return Redirect(RouteFor(userRole), false, "");
  }
}
