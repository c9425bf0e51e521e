/**
 * The state-changing handlers of src/controllers/userController.js: submissions, the
 * profile, and the payment order and its verification. `studentId` is the id the
 * session carries. The payment gateway and HMAC-SHA256 are parameters; the read-only
 * listing handlers are not part of this model.
 */
module UserController {
  import opened Wrappers
  import opened Js
  import opened Http
  import opened Sql
  import opened Store
  import opened UploadMiddleware

  /** `SELECT ... FROM competitions WHERE id = ?`: the row the bound value selects, if any. */
  function FindCompetition(competitions: map<nat, Competition>, id: JsVal): (r: Option<Competition>)
    ensures r.Some? <==> AsId(id).Some? && AsId(id).value in competitions
    ensures r.Some? ==> r.value == competitions[AsId(id).value]
  {
    var key := AsId(id);
    if key.Some? && key.value in competitions then Some(competitions[key.value]) else None
  }

  /** An update that keeps every email keeps them unique. */
  lemma {:induction false} UpdateKeepsEmailsUnique(users: map<nat, User>, id: JsVal, f: User -> User)
    requires forall u :: f(u).email == u.email
    ensures EmailsUnique(users) ==> EmailsUnique(UpdateWhereId(users, id, f))
  {
    var r := UpdateWhereId(users, id, f);
    if EmailsUnique(users) {
      forall a, b | a in r && b in r && r[a].email == r[b].email ensures a == b {
        assert r[a].email == users[a].email && r[b].email == users[b].email;
      }
    }
  }

  /** An update that keeps every role keeps the number of admins. */
  lemma {:induction false} UpdateKeepsAdminCount(users: map<nat, User>, id: JsVal, f: User -> User)
    requires forall u :: f(u).role == u.role
    ensures AdminCount(UpdateWhereId(users, id, f)) == AdminCount(users)
  {
    var r := UpdateWhereId(users, id, f);
    assert AdminIds(r) == AdminIds(users) by {
      forall k ensures k in AdminIds(r) <==> k in AdminIds(users) {
        if k in users {
          assert r[k].role == users[k].role;
        }
      }
    }
  }

  // ---------------------------------------------------------------------------
  // createSubmission

  /** The row `createSubmission` inserts; empty notes become NULL, the status is the column default. */
  function NewSubmission(studentId: JsVal, competitionId: JsVal, notes: JsVal, file: Option<StoredFile>): (s: Submission)
    ensures s.studentId == studentId && s.competitionId == competitionId
    ensures s.mediaPath.Null? <==> file.None?
    ensures file.Some? ==> s.mediaPath == Str("/uploads/submissions/" + file.value.filename)
    ensures s.notes == (if Truthy(notes) then notes else Null)
    ensures s.status == NewSubmissionStatus
  {
    assert file.Some? ==> UploadedPath("submissions", file) == Str("/uploads/submissions/" + file.value.filename) by {
      assert "/uploads/" + "submissions" + "/" == "/uploads/submissions/";
    }
    Submission(studentId, competitionId, UploadedPath("submissions", file), Or(notes, Null), NewSubmissionStatus)
  }

  method CreateSubmission(db: Db, studentId: JsVal, competitionId: JsVal, notes: JsVal, file: Option<StoredFile>)
    returns (res: Response, whatsappLink: Option<JsVal>)
    requires db.Valid()
    modifies db`submissions, db`nextSubmissionId
    ensures db.Valid()
    ensures var competition := FindCompetition(db.competitions, competitionId);
            var row := NewSubmission(studentId, competitionId, notes, file);
            if competitionId == Undefined then
              && res == Response(ServerError, "Unable to submit entry.") && whatsappLink == None
              && db.submissions == old(db.submissions) && db.nextSubmissionId == old(db.nextSubmissionId)
            else if competition.None? then
              && res == Response(NotFound, "Competition not found.") && whatsappLink == None
              && db.submissions == old(db.submissions) && db.nextSubmissionId == old(db.nextSubmissionId)
            else if studentId == Undefined then
              && res == Response(ServerError, "Unable to submit entry.") && whatsappLink == None
              && db.submissions == old(db.submissions) && db.nextSubmissionId == old(db.nextSubmissionId)
            else
              && db.submissions == old(db.submissions)[old(db.nextSubmissionId) := row]
              && db.nextSubmissionId == old(db.nextSubmissionId) + 1
              && res == Response(Created, "Submission received.")
              && whatsappLink == Some(competition.value.whatsappLink)
  {
    if !BindsDefined([competitionId]) {
      return Response(ServerError, "Unable to submit entry."), None;
    }
    var competition := FindCompetition(db.competitions, competitionId);
    if competition.None? {
      return Response(NotFound, "Competition not found."), None;
    }
    var row := NewSubmission(studentId, competitionId, notes, file);
    if !BindsDefined([row.studentId, row.competitionId, row.mediaPath, row.notes]) {
      return Response(ServerError, "Unable to submit entry."), None;
    }
    db.submissions := db.submissions[db.nextSubmissionId := row];
    db.nextSubmissionId := db.nextSubmissionId + 1;
    res, whatsappLink := Response(Created, "Submission received."), Some(competition.value.whatsappLink);
  }

  // ---------------------------------------------------------------------------
  // updateProfile and uploadProfilePicture

  /** `COALESCE(x || null, col)` on name, school and affiliate school: an empty input keeps the column. */
  function MergeProfile(u: User, name: JsVal, school: JsVal, affiliateSchool: JsVal): (r: User)
    ensures r.name == (if Truthy(name) then name else u.name)
    ensures r.school == (if Truthy(school) then school else u.school)
    ensures r.affiliateSchool == (if Truthy(affiliateSchool) then affiliateSchool else u.affiliateSchool)
    ensures r.email == u.email && r.passwordHash == u.passwordHash && r.role == u.role
    ensures r.profilePicture == u.profilePicture
  {
    u.(name := KeepIfFalsy(name, u.name),
       school := KeepIfFalsy(school, u.school),
       affiliateSchool := KeepIfFalsy(affiliateSchool, u.affiliateSchool))
  }

  /** Unlike the competition update, a profile form with emptied fields changes nothing. */
  lemma EmptyProfileFormKeepsUser(u: User)
    ensures MergeProfile(u, Str(""), Str(""), Str("")) == u
    ensures MergeProfile(u, Undefined, Null, Num(0)) == u
  {
  }

  /** `UPDATE users SET name, school, affiliate_school ... WHERE id = ?` with the `||` merge. */
  function ProfileUpdated(users: map<nat, User>, id: JsVal, name: JsVal, school: JsVal, affiliateSchool: JsVal)
    : (r: map<nat, User>)
    ensures r.Keys == users.Keys
    ensures forall k :: k in users ==>
              r[k] == if AsId(id) == Some(k) then MergeProfile(users[k], name, school, affiliateSchool) else users[k]
    ensures AdminCount(r) == AdminCount(users)
    ensures EmailsUnique(users) ==> EmailsUnique(r)
  {
    var f := (u: User) => MergeProfile(u, name, school, affiliateSchool);
    UpdateKeepsAdminCount(users, id, f);
    UpdateKeepsEmailsUnique(users, id, f);
    UpdateWhereId(users, id, f)
  }

  method UpdateProfile(db: Db, studentId: JsVal, name: JsVal, school: JsVal, affiliateSchool: JsVal)
    returns (res: Response)
    requires db.Valid()
    modifies db`users
    ensures db.Valid()
    ensures studentId == Undefined ==>
              db.users == old(db.users) && res == Response(ServerError, "Unable to update profile.")
    ensures studentId != Undefined ==>
              && db.users == ProfileUpdated(old(db.users), studentId, name, school, affiliateSchool)
              && res == Response(Success, "Profile updated.")
  {
    // The three `|| null` values are never undefined; only the session id can be.
    if studentId == Undefined {
      return Response(ServerError, "Unable to update profile.");
    }
    db.users := ProfileUpdated(db.users, studentId, name, school, affiliateSchool);
    res := Response(Success, "Profile updated.");
  }

  method UploadProfilePicture(db: Db, studentId: JsVal, file: Option<StoredFile>)
    returns (res: Response, profilePath: Option<JsVal>)
    requires db.Valid()
    modifies db`users
    ensures db.Valid()
    ensures file.None? ==>
              db.users == old(db.users) && res == Response(BadRequest, "No file uploaded.") && profilePath == None
    ensures file.Some? && studentId == Undefined ==>
              && db.users == old(db.users) && profilePath == None
              && res == Response(ServerError, "Unable to upload profile picture.")
    ensures file.Some? && studentId != Undefined ==>
              var path := UploadedPath("profiles", file);
              && db.users == UpdateWhereId(old(db.users), studentId, (u: User) => u.(profilePicture := path))
              && res == Response(Success, "Profile picture updated.") && profilePath == Some(path)
  {
    if file.None? {
      return Response(BadRequest, "No file uploaded."), None;
    }
    var path := UploadedPath("profiles", file);
    if !BindsDefined([path, studentId]) {
      return Response(ServerError, "Unable to upload profile picture."), None;
    }
    var f := (u: User) => u.(profilePicture := path);
    UpdateKeepsEmailsUnique(db.users, studentId, f);
    db.users := UpdateWhereId(db.users, studentId, f);
    res, profilePath := Response(Success, "Profile picture updated."), Some(path);
  }

  // ---------------------------------------------------------------------------
  // createPaymentOrder

  /** What is sent to `orders.create`; an amount of `None` is `NaN`. */
  datatype OrderRequest = OrderRequest(amount: Option<int>, currency: string, receipt: Receipt)

  /** The receipt of an order: the competition and the clock reading when it was made. */
  datatype Receipt = Receipt(competitionId: JsVal, issuedAt: nat)

  /** The gateway's answer: the created order, or a rejection with its HTTP status code if it has one. */
  datatype GatewayReply = OrderCreated(id: string, currency: string) | GatewayError(statusCode: Option<int>)

  /** The success body: the order id, the amount in paise and the currency. */
  datatype OrderSummary = OrderSummary(orderId: string, amount: int, currency: string)

  const Currency := "INR"

  /** The receipt text `GB-<competitionId>-<Date.now()>`. */
  function ReceiptText(r: Receipt): string {
    "GB-" + ToText(r.competitionId) + "-" + Decimal(r.issuedAt)
  }

  /** The decision ladder before the gateway is called; `None` means the order goes out. */
  function OrderRejection(competition: Option<Competition>, gatewayConfigured: bool): (r: Option<Response>)
    ensures competition.None? ==> r == Some(Response(NotFound, "Competition not found."))
    ensures competition.Some? && !Truthy(competition.value.isPaid) ==> r == Some(Response(BadRequest, "Competition is free."))
    ensures competition.Some? && Truthy(competition.value.isPaid) && !gatewayConfigured ==>
              r == Some(Response(ServerError, "Payment service not configured properly."))
    ensures r.None? <==> competition.Some? && Truthy(competition.value.isPaid) && gatewayConfigured
  {
    if competition.None? then Some(Response(NotFound, "Competition not found."))
    else if !Truthy(competition.value.isPaid) then Some(Response(BadRequest, "Competition is free."))
    else if !gatewayConfigured then Some(Response(ServerError, "Payment service not configured properly."))
    else None
  }

  /** The answer to a gateway failure: a 401 means the credentials are wrong. */
  function GatewayFailure(statusCode: Option<int>): (r: Response)
    ensures r.status == ServerError
    ensures r.message == "Payment service authentication failed. Please check Razorpay credentials."
            <==> statusCode == Some(401)
  {
    if statusCode == Some(401) then Response(ServerError, "Payment service authentication failed. Please check Razorpay credentials.")
    else Response(ServerError, "Payment service temporarily unavailable.")
  }

  /**
   * `createPaymentOrder`. `gateway` is `None` when the Razorpay client was not configured,
   * and otherwise the reply `orders.create` gives to the request this call sends.
   */
  method CreatePaymentOrder(db: Db, studentId: JsVal, competitionId: JsVal,
                            gateway: Option<GatewayReply>, now: nat)
    returns (res: Response, sent: Option<OrderRequest>, order: Option<OrderSummary>)
    requires db.Valid()
    modifies db`payments, db`nextPaymentId
    ensures db.Valid()
    ensures order.Some? <==> db.payments != old(db.payments)
    ensures order.None? ==> db.payments == old(db.payments) && db.nextPaymentId == old(db.nextPaymentId)
    ensures competitionId == Undefined ==>
              res == Response(ServerError, "Unable to create payment order.") && sent == None
    ensures competitionId != Undefined ==>
              var rejection := OrderRejection(FindCompetition(db.competitions, competitionId), gateway.Some?);
              && (rejection.Some? ==> res == rejection.value && sent == None && order == None)
              && (rejection.None? ==>
                    var fee := FindCompetition(db.competitions, competitionId).value.fee;
                    sent == Some(OrderRequest(Hundredths(fee), Currency, Receipt(competitionId, now))))
    ensures sent.Some? && gateway.Some? && gateway.value.GatewayError? ==>
              res == GatewayFailure(gateway.value.statusCode) && order == None
    ensures sent.Some? && gateway.Some? && gateway.value.OrderCreated?
            && sent.value.amount.Some? && studentId != Undefined ==>
              && order.Some? && order.value.orderId == gateway.value.id
              && order.value.amount == sent.value.amount.value
    ensures sent.Some? && gateway.Some? && gateway.value.OrderCreated?
            && (sent.value.amount.None? || studentId == Undefined) ==>
              res == GatewayFailure(None) && order == None
    ensures order.Some? ==>
              && sent.Some? && gateway.Some? && sent.value.amount == Some(order.value.amount)
              && gateway.value == OrderCreated(order.value.orderId, order.value.currency)
              && db.payments == old(db.payments)[old(db.nextPaymentId) :=
                   Payment(order.value.orderId, studentId, competitionId, order.value.amount, Null, Null, Pending)]
              && db.nextPaymentId == old(db.nextPaymentId) + 1
              && res == Response(Success, "")
  {
    sent, order := None, None;
    if competitionId == Undefined {
      return Response(ServerError, "Unable to create payment order."), sent, order;
    }
    var competition := FindCompetition(db.competitions, competitionId);
    var rejection := OrderRejection(competition, gateway.Some?);
    if rejection.Some? {
      return rejection.value, sent, order;
    }
    var amount := Hundredths(competition.value.fee);
    var request := OrderRequest(amount, Currency, Receipt(competitionId, now));
    sent := Some(request);
    assert db.nextPaymentId !in db.payments;
    res, order := RecordOrder(db, studentId, competitionId, amount, gateway.value);
  }

  /**
   * The inner `try` of `createPaymentOrder`, once the gateway has answered: a gateway error
   * answers by its status code; a created order is stored as a pending row unless the insert
   * is refused (a `NaN` amount or an `undefined` student), which answers like a gateway failure.
   */
  method RecordOrder(db: Db, studentId: JsVal, competitionId: JsVal, amount: Option<int>, reply: GatewayReply)
    returns (res: Response, order: Option<OrderSummary>)
    requires db.Valid()
    modifies db`payments, db`nextPaymentId
    ensures db.Valid()
    ensures order.Some? <==> reply.OrderCreated? && amount.Some? && studentId != Undefined
    ensures order.None? ==> db.payments == old(db.payments) && db.nextPaymentId == old(db.nextPaymentId)
    ensures reply.GatewayError? ==> res == GatewayFailure(reply.statusCode) && order == None
    ensures reply.OrderCreated? && (amount.None? || studentId == Undefined) ==>
              res == GatewayFailure(None) && order == None
    ensures reply.OrderCreated? && amount.Some? && studentId != Undefined ==>
              && order == Some(OrderSummary(reply.id, amount.value, reply.currency))
              && db.payments == old(db.payments)[old(db.nextPaymentId) :=
                   Payment(reply.id, studentId, competitionId, amount.value, Null, Null, Pending)]
              && db.nextPaymentId == old(db.nextPaymentId) + 1
              && res == Response(Success, "")
  {
    order := None;
    if reply.GatewayError? {
      return GatewayFailure(reply.statusCode), order;
    }
    // The insert binds `amount / 100`: `NaN` and an `undefined` student id are refused.
    if amount.None? || studentId == Undefined {
      return GatewayFailure(None), order;
    }
    InsertPayment(db, Payment(reply.id, studentId, competitionId, amount.value, Null, Null, Pending));
    order := Some(OrderSummary(reply.id, amount.value, reply.currency));
    res := Response(Success, "");
  }

  /** `INSERT INTO payments`: the row goes in under the next id, which is unused. */
  method InsertPayment(db: Db, row: Payment)
    requires db.Valid()
    modifies db`payments, db`nextPaymentId
    ensures db.Valid()
    ensures old(db.nextPaymentId) !in old(db.payments)
    ensures db.payments == old(db.payments)[old(db.nextPaymentId) := row]
    ensures db.nextPaymentId == old(db.nextPaymentId) + 1
  {
    db.payments := db.payments[db.nextPaymentId := row];
    db.nextPaymentId := db.nextPaymentId + 1;
  }

  // ---------------------------------------------------------------------------
  // verifyPayment

  /** `'paid'` exactly when the signature is the hex HMAC of `<orderId>|<paymentId>` under the key secret. */
  function VerifiedStatus(orderId: JsVal, paymentId: JsVal, signature: JsVal, hmac: (string, string) -> string,
                          secret: string): (s: PaymentStatus)
    ensures s == Paid <==> signature == Str(hmac(secret, ToText(orderId) + "|" + ToText(paymentId)))
    ensures s != Pending
  {
    if Str(hmac(secret, ToText(orderId) + "|" + ToText(paymentId))) == signature then Paid else Failed
  }

  /** `UPDATE payments SET payment_id, signature, status WHERE order_id = ?`: every row of that order, no other. */
  function MarkPayments(payments: map<nat, Payment>, orderId: JsVal, paymentId: JsVal, signature: JsVal,
                        status: PaymentStatus): (r: map<nat, Payment>)
    ensures r.Keys == payments.Keys
    ensures forall k :: k in payments && Str(payments[k].orderId) == orderId ==>
              r[k] == payments[k].(paymentId := paymentId, signature := signature, status := status)
    ensures forall k :: k in payments && Str(payments[k].orderId) != orderId ==> r[k] == payments[k]
  {
    map k | k in payments ::
      if Str(payments[k].orderId) == orderId
      then payments[k].(paymentId := paymentId, signature := signature, status := status)
      else payments[k]
  }

  /**
   * `secret` is the configured key secret; without one `createHmac` throws. The update
   * checks neither the row's current status nor who owns it.
   */
  method VerifyPayment(db: Db, orderId: JsVal, paymentId: JsVal, signature: JsVal,
                       hmac: (string, string) -> string, secret: Option<string>)
    returns (res: Response)
    requires db.Valid()
    modifies db`payments
    ensures db.Valid()
    ensures !Truthy(orderId) || !Truthy(paymentId) || !Truthy(signature) ==>
              res == Response(BadRequest, "Incomplete payment details.") && db.payments == old(db.payments)
    ensures Truthy(orderId) && Truthy(paymentId) && Truthy(signature) && secret.None? ==>
              res == Response(ServerError, "Unable to verify payment.") && db.payments == old(db.payments)
    ensures Truthy(orderId) && Truthy(paymentId) && Truthy(signature) && secret.Some? ==>
              var status := VerifiedStatus(orderId, paymentId, signature, hmac, secret.value);
              && db.payments == MarkPayments(old(db.payments), orderId, paymentId, signature, status)
              && (res.status == Success <==> status == Paid)
              && res == (if status == Paid then Response(Success, "Payment verified.")
                         else Response(BadRequest, "Payment verification failed."))
  {
    if !Truthy(orderId) || !Truthy(paymentId) || !Truthy(signature) {
      return Response(BadRequest, "Incomplete payment details.");
    }
    if secret.None? {
      return Response(ServerError, "Unable to verify payment.");
    }
    var expected := hmac(secret.value, ToText(orderId) + "|" + ToText(paymentId));
    var status := if signature.Str? && expected == signature.s then Paid else Failed;
    db.payments := MarkPayments(db.payments, orderId, paymentId, signature, status);
    if status == Paid {
      return Response(Success, "Payment verified.");
    }
    res := Response(BadRequest, "Payment verification failed.");
  }

  /** A later call with a wrong signature turns a paid row into a failed one. */
  lemma PaidRowCanBeOverwritten(hmac: (string, string) -> string, secret: string)
    ensures var paid := Payment("order_1", Num(7), Num(3), 49900, Str("pay_1"), Str("good"), Paid);
            var bad := Str(hmac(secret, "order_1|pay_2") + "x");
            MarkPayments(map[1 := paid], Str("order_1"), Str("pay_2"), bad,
                         VerifiedStatus(Str("order_1"), Str("pay_2"), bad, hmac, secret))[1].status == Failed
  {
    var expected := hmac(secret, "order_1|pay_2");
    var bad := Str(expected + "x");
    assert |bad.s| != |expected|;
    assert ToText(Str("order_1")) + "|" + ToText(Str("pay_2")) == "order_1|pay_2";
    assert VerifiedStatus(Str("order_1"), Str("pay_2"), bad, hmac, secret) == Failed;
  }
}
