/**
 * The database as the controllers use it: one map per table from the auto-increment
 * id to the row, and the next id each table will hand out. A column holds the value
 * the handler bound to it; MySQL's conversion to the column type is not modelled.
 */
module Store {
  import opened Wrappers
  import opened Js

  /** `users.role`. */
  datatype Role = Student | Admin

  datatype User = User(
    name: JsVal, email: JsVal, passwordHash: string, role: Role,
    school: JsVal, affiliateSchool: JsVal, profilePicture: JsVal)

  /** A `password_resets` row; the table has one row per `user_id`. `expiresAt` is in ms. */
  datatype ResetRecord = ResetRecord(tokenHash: string, expiresAt: int)

  datatype Competition = Competition(
    title: JsVal, description: JsVal, isPaid: JsVal, fee: JsVal, whatsappLink: JsVal,
    status: JsVal, startDate: JsVal, endDate: JsVal, thumbnail: JsVal, createdBy: JsVal)

  datatype Submission = Submission(studentId: JsVal, competitionId: JsVal, mediaPath: JsVal, notes: JsVal, status: JsVal)

  datatype Winner = Winner(competitionId: JsVal, studentName: JsVal, school: JsVal, mediaPath: JsVal, highlightText: JsVal)

  datatype PaymentStatus = Pending | Paid | Failed

  /** A `payments` row; `amount` is in paise. */
  datatype Payment = Payment(
    orderId: string, studentId: JsVal, competitionId: JsVal, amount: int,
    paymentId: JsVal, signature: JsVal, status: PaymentStatus)

  datatype SiteSettings = SiteSettings(logoPath: JsVal, affiliateText: JsVal, aboutContent: JsVal, features: JsVal)

  /** The status column default of a new submission (supplied by the schema). */
  const NewSubmissionStatus := Str("pending")

  /** The single settings row the handlers address. */
  const SettingsRowId: nat := 1

  /** No two users share an email: the guard in signup and admin creation keeps this. */
  ghost predicate EmailsUnique(users: map<nat, User>) {
    forall a, b :: a in users && b in users && users[a].email == users[b].email ==> a == b
  }

  predicate EmailInUse(users: map<nat, User>, email: JsVal) {
    exists id :: id in users && users[id].email == email
  }

  function AdminIds(users: map<nat, User>): set<nat> {
    set id | id in users && users[id].role == Admin
  }

  /** `SELECT COUNT(*) FROM users WHERE role = "admin"`. */
  function AdminCount(users: map<nat, User>): nat {
    |AdminIds(users)|
  }

  /** Inserting a row under a fresh id adds one admin exactly when the row is an admin. */
  lemma AdminCountAfterInsert(users: map<nat, User>, id: nat, u: User)
    requires id !in users
    ensures AdminCount(users[id := u]) == AdminCount(users) + (if u.role == Admin then 1 else 0)
  {
    if u.role == Admin {
      assert AdminIds(users[id := u]) == AdminIds(users) + {id};
    } else {
      assert AdminIds(users[id := u]) == AdminIds(users);
    }
  }

  /** Inserting a user whose email is not in use keeps emails unique. */
  lemma InsertKeepsEmailsUnique(users: map<nat, User>, id: nat, u: User)
    requires EmailsUnique(users) && id !in users && !EmailInUse(users, u.email)
    ensures EmailsUnique(users[id := u])
  {
  }

  class Db {
    var users: map<nat, User>
    var nextUserId: nat
    var resets: map<nat, ResetRecord>
    var competitions: map<nat, Competition>
    var nextCompetitionId: nat
    var submissions: map<nat, Submission>
    var nextSubmissionId: nat
    var winners: map<nat, Winner>
    var nextWinnerId: nat
    var payments: map<nat, Payment>
    var nextPaymentId: nat
    var settings: map<nat, SiteSettings>

    /** Every id lies below its table's counter, and emails are unique. */
    ghost predicate Valid()
      reads this
    {
      && (forall id :: id in users ==> id < nextUserId)
      && (forall id :: id in competitions ==> id < nextCompetitionId)
      && (forall id :: id in submissions ==> id < nextSubmissionId)
      && (forall id :: id in winners ==> id < nextWinnerId)
      && (forall id :: id in payments ==> id < nextPaymentId)
      && EmailsUnique(users)
    }

    /** Empty tables and the settings row with every column NULL. */
    constructor ()
      ensures Valid()
      ensures users == map[] && resets == map[] && competitions == map[] && submissions == map[]
      ensures winners == map[] && payments == map[]
      ensures settings == map[SettingsRowId := SiteSettings(Null, Null, Null, Null)]
    {
      users, resets, competitions, submissions, winners, payments := map[], map[], map[], map[], map[], map[];
      nextUserId, nextCompetitionId, nextSubmissionId, nextWinnerId, nextPaymentId := 1, 1, 1, 1, 1;
      settings := map[SettingsRowId := SiteSettings(Null, Null, Null, Null)];
    }
  }
}
