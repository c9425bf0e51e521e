/**
 * src/controllers/authController.js: sign-up, login, admin creation and the
 * password-reset records. Hashing, token signing and mail are parameters: `passwordHash`
 * is what bcrypt produced, `sha256` and `compare` stand for the digest and bcrypt's
 * comparison, `token` is the random reset token, and `now` is the clock in milliseconds.
 */
module AuthController {
  import opened Wrappers
  import opened Js
  import opened Http
  import opened Store

  /** The payload of the signed session token. */
  datatype Claims = Claims(id: nat, role: Role, name: JsVal, email: JsVal)

  /** A reset token is good for thirty minutes. */
  const ResetLifetimeMs: int := 1000 * 60 * 30

  /** The most admin accounts the invite flow creates. */
  const MaxAdmins: nat := 5

  // ---------------------------------------------------------------------------
  // createResetRecord

  /** The upsert keyed by `user_id`: a new request replaces the hash and the expiry. */
  method CreateResetRecord(db: Db, userId: nat, token: string, sha256: string -> string, now: int)
    returns (t: string)
    requires db.Valid()
    modifies db`resets
    ensures db.Valid()
    ensures db.resets == old(db.resets)[userId := ResetRecord(sha256(token), now + ResetLifetimeMs)]
    ensures t == token
  {
    db.resets := db.resets[userId := ResetRecord(sha256(token), now + ResetLifetimeMs)];
    t := token;
  }

  // ---------------------------------------------------------------------------
  // signup

  /** The rejections `signup` gives before it writes anything, in the order it checks them. */
  function SignupRejection(users: map<nat, User>, name: JsVal, email: JsVal, password: JsVal): (r: Option<Response>)
    ensures r.None? <==> Truthy(name) && Truthy(email) && Truthy(password) && !EmailInUse(users, email)
    ensures r.Some? && r.value.status == BadRequest <==> !(Truthy(name) && Truthy(email) && Truthy(password))
    ensures r.Some? ==> r.value.status in {BadRequest, Conflict}
  {
    if !Truthy(name) || !Truthy(email) || !Truthy(password) then
      Some(Response(BadRequest, "Name, email, and password are required."))
    else if EmailInUse(users, email) then
      Some(Response(Conflict, "Email already registered."))
    else None
  }

  /** The student row `signup` inserts. */
  function NewStudent(name: JsVal, email: JsVal, passwordHash: string, school: JsVal, affiliateSchool: JsVal): (u: User)
    ensures u.role == Student && u.name == name && u.email == email && u.passwordHash == passwordHash
    ensures u.school == (if Truthy(school) then school else Null)
    ensures u.affiliateSchool == (if Truthy(affiliateSchool) then affiliateSchool else Null)
    ensures u.profilePicture == Null
  {
    User(name, email, passwordHash, Student, Or(school, Null), Or(affiliateSchool, Null), Null)
  }

  method Signup(db: Db, name: JsVal, email: JsVal, password: JsVal, school: JsVal, affiliateSchool: JsVal,
                passwordHash: string, jwtSecretSet: bool)
    returns (res: Response, claims: Option<Claims>)
    requires db.Valid()
    modifies db`users, db`nextUserId
    ensures db.Valid()
    ensures var rejection := SignupRejection(old(db.users), name, email, password);
            if rejection.Some? then
              && res == rejection.value && claims == None
              && db.users == old(db.users) && db.nextUserId == old(db.nextUserId)
            else if !password.Str? then
              && res == Response(ServerError, "Unable to sign up right now.") && claims == None
              && db.users == old(db.users) && db.nextUserId == old(db.nextUserId)
            else
              var id := old(db.nextUserId);
              && db.users == old(db.users)[id := NewStudent(name, email, passwordHash, school, affiliateSchool)]
              && db.nextUserId == id + 1
              && (if jwtSecretSet then
                    res == Response(Created, "Signup successful") && claims == Some(Claims(id, Student, name, email))
                  else
                    res == Response(ServerError, "Unable to sign up right now.") && claims == None)
    ensures AdminCount(db.users) == AdminCount(old(db.users))
  {
    var rejection := SignupRejection(db.users, name, email, password);
    if rejection.Some? {
      return rejection.value, None;
    }
    // bcrypt refuses to hash anything but a string.
    if !password.Str? {
      return Response(ServerError, "Unable to sign up right now."), None;
    }
    var id := db.nextUserId;
    var u := NewStudent(name, email, passwordHash, school, affiliateSchool);
    AdminCountAfterInsert(db.users, id, u);
    InsertKeepsEmailsUnique(db.users, id, u);
    db.users := db.users[id := u];
    db.nextUserId := id + 1;
    // Signing the token throws without a secret; the row is already inserted by then.
    if !jwtSecretSet {
      return Response(ServerError, "Unable to sign up right now."), None;
    }
    res, claims := Response(Created, "Signup successful"), Some(Claims(id, Student, name, email));
  }

  // ---------------------------------------------------------------------------
  // login

  /**
   * Login changes nothing. Whether the email is unknown or the password wrong, the
   * answer is the same 401; on success the claims are the stored user's. bcrypt's
   * comparison rejects a password that is not a string, which answers 500, but only once
   * the email was found. Without a JWT secret, signing the token of a matching login
   * throws, which answers 500 as well.
   */
  method Login(db: Db, email: JsVal, password: JsVal, compare: (string, string) -> bool, jwtSecretSet: bool)
    returns (res: Response, claims: Option<Claims>)
    requires db.Valid()
    ensures !Truthy(email) || !Truthy(password) ==>
              res == Response(BadRequest, "Email and password are required.") && claims == None
    ensures Truthy(email) && Truthy(password) && !EmailInUse(db.users, email) ==>
              res == Response(Unauthorized, "Invalid credentials.") && claims == None
    ensures Truthy(email) && Truthy(password) && EmailInUse(db.users, email) && !password.Str? ==>
              res == Response(ServerError, "Unable to login right now.") && claims == None
    ensures Truthy(email) && password.Str? && password.s != "" ==>
              (claims.Some? <==> jwtSecretSet && (exists id :: id in db.users && db.users[id].email == email
                                                                  && compare(password.s, db.users[id].passwordHash)))
    ensures Truthy(email) && password.Str? && password.s != "" && claims.None? ==>
              res == if exists id :: id in db.users && db.users[id].email == email
                                     && compare(password.s, db.users[id].passwordHash)
                     then Response(ServerError, "Unable to login right now.")
                     else Response(Unauthorized, "Invalid credentials.")
    ensures claims.Some? ==>
              && res == Response(Success, "Login successful")
              && var id := claims.value.id;
              && id in db.users && db.users[id].email == email
              && claims.value == Claims(id, db.users[id].role, db.users[id].name, db.users[id].email)
  {
    if !Truthy(email) || !Truthy(password) {
      return Response(BadRequest, "Email and password are required."), None;
    }
    if !EmailInUse(db.users, email) {
      return Response(Unauthorized, "Invalid credentials."), None;
    }
    if !password.Str? {
      return Response(ServerError, "Unable to login right now."), None;
    }
    var id :| id in db.users && db.users[id].email == email;
    var user := db.users[id];
    if !compare(password.s, user.passwordHash) {
      return Response(Unauthorized, "Invalid credentials."), None;
    }
    // Signing the token throws without a secret.
    if !jwtSecretSet {
      return Response(ServerError, "Unable to login right now."), None;
    }
    res, claims := Response(Success, "Login successful"), Some(Claims(id, user.role, user.name, user.email));
  }

  // ---------------------------------------------------------------------------
  // createAdminAccount

  /** `!process.env.ADMIN_INVITE_CODE || inviteCode !== process.env.ADMIN_INVITE_CODE`. */
  predicate InviteRejected(inviteCode: JsVal, configured: Option<string>) {
    configured.None? || configured.value == "" || inviteCode != Str(configured.value)
  }

  /** The rejections of `createAdminAccount`, in the order it checks them. */
  function AdminRejection(users: map<nat, User>, name: JsVal, email: JsVal, password: JsVal, inviteCode: JsVal,
                          configured: Option<string>): (r: Option<Response>)
    ensures r.None? <==>
              && Truthy(name) && Truthy(email) && Truthy(password) && Truthy(inviteCode)
              && !InviteRejected(inviteCode, configured)
              && !EmailInUse(users, email)
              && AdminCount(users) < MaxAdmins
    ensures r.Some? && r.value.status == BadRequest <==>
              !(Truthy(name) && Truthy(email) && Truthy(password) && Truthy(inviteCode))
    ensures r == Some(Response(Forbidden, "Invalid invite code.")) <==>
              && Truthy(name) && Truthy(email) && Truthy(password) && Truthy(inviteCode)
              && InviteRejected(inviteCode, configured)
    ensures r == Some(Response(Conflict, "Email already registered.")) <==>
              && Truthy(name) && Truthy(email) && Truthy(password) && Truthy(inviteCode)
              && !InviteRejected(inviteCode, configured)
              && EmailInUse(users, email)
    ensures r == Some(Response(Forbidden, "Admin limit reached. Contact support.")) <==>
              && Truthy(name) && Truthy(email) && Truthy(password) && Truthy(inviteCode)
              && !InviteRejected(inviteCode, configured)
              && !EmailInUse(users, email)
              && AdminCount(users) >= MaxAdmins
  {
    if !Truthy(name) || !Truthy(email) || !Truthy(password) || !Truthy(inviteCode) then
      Some(Response(BadRequest, "All fields are required."))
    else if InviteRejected(inviteCode, configured) then
      Some(Response(Forbidden, "Invalid invite code."))
    else if EmailInUse(users, email) then
      Some(Response(Conflict, "Email already registered."))
    else if AdminCount(users) >= MaxAdmins then
      Some(Response(Forbidden, "Admin limit reached. Contact support."))
    else None
  }

  function NewAdmin(name: JsVal, email: JsVal, passwordHash: string): (u: User)
    ensures u.role == Admin && u.name == name && u.email == email && u.passwordHash == passwordHash
    ensures u.school == Null && u.affiliateSchool == Null && u.profilePicture == Null
  {
    User(name, email, passwordHash, Admin, Null, Null, Null)
  }

  method CreateAdminAccount(db: Db, name: JsVal, email: JsVal, password: JsVal, inviteCode: JsVal,
                            configured: Option<string>, passwordHash: string)
    returns (res: Response, adminId: Option<nat>)
    requires db.Valid()
    modifies db`users, db`nextUserId
    ensures db.Valid()
    ensures var rejection := AdminRejection(old(db.users), name, email, password, inviteCode, configured);
            if rejection.Some? then
              && res == rejection.value && adminId == None
              && db.users == old(db.users) && db.nextUserId == old(db.nextUserId)
            else if !password.Str? then
              && res == Response(ServerError, "Unable to create admin right now.") && adminId == None
              && db.users == old(db.users) && db.nextUserId == old(db.nextUserId)
            else
              var id := old(db.nextUserId);
              && db.users == old(db.users)[id := NewAdmin(name, email, passwordHash)]
              && db.nextUserId == id + 1
              && res == Response(Created, "Admin account created. You can login now.")
              && adminId == Some(id)
    ensures adminId.Some? ==> AdminCount(db.users) == AdminCount(old(db.users)) + 1 <= MaxAdmins
    ensures AdminCount(old(db.users)) <= MaxAdmins ==> AdminCount(db.users) <= MaxAdmins
  {
    var rejection := AdminRejection(db.users, name, email, password, inviteCode, configured);
    if rejection.Some? {
      return rejection.value, None;
    }
    // bcrypt refuses to hash anything but a string.
    if !password.Str? {
      return Response(ServerError, "Unable to create admin right now."), None;
    }
    var id := db.nextUserId;
    var u := NewAdmin(name, email, passwordHash);
    AdminCountAfterInsert(db.users, id, u);
    InsertKeepsEmailsUnique(db.users, id, u);
    db.users := db.users[id := u];
    db.nextUserId := id + 1;
    res, adminId := Response(Created, "Admin account created. You can login now."), Some(id);
  }

  // ---------------------------------------------------------------------------
  // requestUserPasswordReset / requestAdminPasswordReset

  /** The user of the given role registered under `email`. */
  predicate HasUserWithRole(users: map<nat, User>, email: JsVal, role: Role) {
    exists id :: id in users && users[id].email == email && users[id].role == role
  }

  /** The answers of one reset flow: the student flow or the admin flow. */
  function NotFoundMessage(role: Role): string {
    if role == Student then "Student not found." else "Admin account not found."
  }

  function SentMessage(role: Role): string {
    if role == Student then "Password reset link sent." else "Admin reset link sent."
  }

  function MailFailedMessage(role: Role): string {
    if role == Student then "Unable to process reset request." else "Unable to process admin reset."
  }

  /**
   * Both reset requests: only a user of `role` with that email gets a record. `mailSent`
   * says whether the mailer accepted the message; a failure answers 500 after the
   * record was written.
   */
  method RequestPasswordReset(db: Db, role: Role, email: JsVal, token: string, sha256: string -> string,
                              now: int, mailSent: bool)
    returns (res: Response)
    requires db.Valid()
    modifies db`resets
    ensures db.Valid()
    ensures !Truthy(email) ==> res == Response(BadRequest, "Email is required.") && db.resets == old(db.resets)
    ensures Truthy(email) && !HasUserWithRole(db.users, email, role) ==>
              res == Response(NotFound, NotFoundMessage(role)) && db.resets == old(db.resets)
    ensures Truthy(email) && HasUserWithRole(db.users, email, role) ==>
              && (exists id :: id in db.users && db.users[id].email == email && db.users[id].role == role
                               && db.resets == old(db.resets)[id := ResetRecord(sha256(token), now + ResetLifetimeMs)])
              && res == (if mailSent then Response(Success, SentMessage(role))
                         else Response(ServerError, MailFailedMessage(role)))
  {
    if !Truthy(email) {
      return Response(BadRequest, "Email is required.");
    }
    if !HasUserWithRole(db.users, email, role) {
      return Response(NotFound, NotFoundMessage(role));
    }
    var id :| id in db.users && db.users[id].email == email && db.users[id].role == role;
    var _ := CreateResetRecord(db, id, token, sha256, now);
    if !mailSent {
      return Response(ServerError, MailFailedMessage(role));
    }
    res := Response(Success, SentMessage(role));
  }

  /** `requestUserPasswordReset`. */
  method RequestUserPasswordReset(db: Db, email: JsVal, token: string, sha256: string -> string, now: int,
                                  mailSent: bool)
    returns (res: Response)
    requires db.Valid()
    modifies db`resets
    ensures db.Valid()
    ensures !Truthy(email) ==> res == Response(BadRequest, "Email is required.") && db.resets == old(db.resets)
    ensures Truthy(email) && !HasUserWithRole(db.users, email, Student) ==>
              res == Response(NotFound, "Student not found.") && db.resets == old(db.resets)
    ensures Truthy(email) && HasUserWithRole(db.users, email, Student) ==>
              && (exists id :: id in db.users && db.users[id].email == email && db.users[id].role == Student
                               && db.resets == old(db.resets)[id := ResetRecord(sha256(token), now + ResetLifetimeMs)])
              && res == (if mailSent then Response(Success, "Password reset link sent.")
                         else Response(ServerError, "Unable to process reset request."))
  {
    res := RequestPasswordReset(db, Student, email, token, sha256, now, mailSent);
  }

  /** `requestAdminPasswordReset`. */
  method RequestAdminPasswordReset(db: Db, email: JsVal, token: string, sha256: string -> string, now: int,
                                   mailSent: bool)
    returns (res: Response)
    requires db.Valid()
    modifies db`resets
    ensures db.Valid()
    ensures !Truthy(email) ==> res == Response(BadRequest, "Email is required.") && db.resets == old(db.resets)
    ensures Truthy(email) && !HasUserWithRole(db.users, email, Admin) ==>
              res == Response(NotFound, "Admin account not found.") && db.resets == old(db.resets)
    ensures Truthy(email) && HasUserWithRole(db.users, email, Admin) ==>
              && (exists id :: id in db.users && db.users[id].email == email && db.users[id].role == Admin
                               && db.resets == old(db.resets)[id := ResetRecord(sha256(token), now + ResetLifetimeMs)])
              && res == (if mailSent then Response(Success, "Admin reset link sent.")
                         else Response(ServerError, "Unable to process admin reset."))
  {
    res := RequestPasswordReset(db, Admin, email, token, sha256, now, mailSent);
  }

  // ---------------------------------------------------------------------------
  // resetPassword

  /** The users holding a live reset record with this hash (the join with `users` drops orphans). */
  function ValidHolders(resets: map<nat, ResetRecord>, users: map<nat, User>, tokenHash: string, now: int)
    : (ids: set<nat>)
    ensures forall id :: id in ids <==>
              id in resets && id in users && resets[id].tokenHash == tokenHash && resets[id].expiresAt > now
  {
    set id | id in resets && id in users && resets[id].tokenHash == tokenHash && resets[id].expiresAt > now
  }

  /** A record is issued for thirty minutes: it is live before its expiry and dead from then on. */
  lemma FreshRecordIsLiveForThirtyMinutes(users: map<nat, User>, id: nat, tokenHash: string, issued: int, now: int)
    requires id in users
    ensures id in ValidHolders(map[id := ResetRecord(tokenHash, issued + ResetLifetimeMs)], users, tokenHash, now)
            <==> now < issued + 1_800_000
  {
  }

  method ResetPassword(db: Db, token: JsVal, password: JsVal, sha256: string -> string, now: int,
                       passwordHash: string)
    returns (res: Response)
    requires db.Valid()
    modifies db`users, db`resets
    ensures db.Valid()
    ensures !Truthy(token) || !Truthy(password) ==>
              && res == Response(BadRequest, "Token and new password are required.")
              && db.users == old(db.users) && db.resets == old(db.resets)
    ensures Truthy(token) && Truthy(password) && !token.Str? ==>
              && res == Response(ServerError, "Unable to reset password.")
              && db.users == old(db.users) && db.resets == old(db.resets)
    ensures Truthy(token) && Truthy(password) && token.Str?
            && ValidHolders(old(db.resets), old(db.users), sha256(token.s), now) == {} ==>
              && res == Response(BadRequest, "Invalid or expired token.")
              && db.users == old(db.users) && db.resets == old(db.resets)
    ensures Truthy(token) && Truthy(password) && token.Str? && !password.Str?
            && ValidHolders(old(db.resets), old(db.users), sha256(token.s), now) != {} ==>
              && res == Response(ServerError, "Unable to reset password.")
              && db.users == old(db.users) && db.resets == old(db.resets)
    ensures res.status == Success <==>
              Truthy(token) && Truthy(password) && token.Str? && password.Str?
              && ValidHolders(old(db.resets), old(db.users), sha256(token.s), now) != {}
    ensures res.status == Success ==>
              && res.message == "Password updated successfully."
              && exists id :: id in ValidHolders(old(db.resets), old(db.users), sha256(token.s), now)
                   && db.users == old(db.users)[id := old(db.users)[id].(passwordHash := passwordHash)]
                   && db.resets == old(db.resets) - {id}
  {
    if !Truthy(token) || !Truthy(password) {
      return Response(BadRequest, "Token and new password are required.");
    }
    if !token.Str? {
      return Response(ServerError, "Unable to reset password.");
    }
    var holders := ValidHolders(db.resets, db.users, sha256(token.s), now);
    if holders == {} {
      return Response(BadRequest, "Invalid or expired token.");
    }
    // bcrypt refuses to hash anything but a string.
    if !password.Str? {
      return Response(ServerError, "Unable to reset password.");
    }
    var id :| id in holders;
    var u := db.users[id];
    db.users := db.users[id := u.(passwordHash := passwordHash)];
    db.resets := db.resets - {id};
    res := Response(Success, "Password updated successfully.");
  }

  /**
   * A token works once: after a successful reset the user's record is gone, so the
   * same token no longer finds a live record unless another user holds the same hash.
   */
  lemma TokenWorksOnce(resets: map<nat, ResetRecord>, users: map<nat, User>, users': map<nat, User>,
                        tokenHash: string, now: int, id: nat)
    requires users'.Keys == users.Keys
    requires ValidHolders(resets, users, tokenHash, now) == {id}
    ensures ValidHolders(resets - {id}, users', tokenHash, now) == {}
  {
  }
}
