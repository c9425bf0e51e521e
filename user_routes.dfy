/**
 * src/routes/userRoutes.js: the student routes, every one behind `ensureAuthenticated`,
 * and the two public routes mounted on the same router.
 */
module UserRoutes {
  import opened Http
  import opened Js
  import opened Store
  import opened AuthMiddleware
  import opened UploadMiddleware
  import opened Router

  datatype Handler =
    | GetDashboard | GetCompetitions | GetCompetition | GetResults | GetSubmissions
    | CreateSubmission | UpdateProfile | UploadProfilePicture
    | CreatePaymentOrder | VerifyPayment
    | CompetitionsPublic
    | GetSiteSettings   // the admin controller's handler, reused without a guard

  const Routes: seq<Route<Handler>> := [
    Route(Get, "/dashboard", [Authenticate], GetDashboard),
    Route(Get, "/competitions", [Authenticate], GetCompetitions),
    Route(Get, "/competitions/:id", [Authenticate], GetCompetition),
    Route(Get, "/results", [Authenticate], GetResults),
    Route(Get, "/submissions", [Authenticate], GetSubmissions),
    Route(Post, "/submissions", [Authenticate, Upload(UploadSubmission, "media")], CreateSubmission),
    Route(Patch, "/profile", [Authenticate], UpdateProfile),
    Route(Post, "/profile/picture", [Authenticate, Upload(UploadProfile, "profile")], UploadProfilePicture),
    Route(Post, "/payments/order", [Authenticate], CreatePaymentOrder),
    Route(Post, "/payments/verify", [Authenticate], VerifyPayment),
    Route(Get, "/competitions-public", [], CompetitionsPublic),
    Route(Get, "/site-settings", [], GetSiteSettings)
  ]

  /** The routes a visitor without a session reaches. */
  predicate IsPublic(r: Route<Handler>) {
    r.steps == []
  }

  /**
   * Exactly the last two routes are public; every other one starts with
   * `ensureAuthenticated`, and no user route checks the admin role.
   */
  lemma {:induction false} RouteGuards()
    ensures |Routes| == 12
    ensures forall i :: 0 <= i < |Routes| ==> (IsPublic(Routes[i]) <==> i in {10, 11})
    ensures forall i :: 0 <= i < |Routes| && !IsPublic(Routes[i]) ==> Routes[i].steps[0] == Authenticate
    ensures forall i, k :: 0 <= i < |Routes| && 0 <= k < |Routes[i].steps| ==> Routes[i].steps[k] != RequireAdmin
  {
    forall i | 0 <= i < |Routes| ensures IsPublic(Routes[i]) <==> i in {10, 11} {
    }
  }

  /** A guarded user handler runs only for a request whose session carries a user. */
  lemma NoGuardedHandlerWithoutUser(i: nat, req: Request)
    requires i < |Routes| && !IsPublic(Routes[i]) && RunChain(Routes[i].steps, req).Reached?
    ensures HasUser(req.session)
  {
    RouteGuards();
    assert RunStep(Routes[i].steps[0], req).Next?;
  }

  /** The submission and profile-picture uploads run only once a user is signed in. */
  lemma UploadOnlyWhenSignedIn(i: nat, req: Request, k: nat)
    requires i < |Routes| && k < |Routes[i].steps| && Routes[i].steps[k].Upload?
    requires Runs(Routes[i].steps, req, k)
    ensures i in {5, 7} && k == 1 && HasUser(req.session)
  {
    RouteGuards();
    RunsOnlyAfterEarlierSteps(Routes[i].steps, req, k, 0);
  }

  // ---------------------------------------------------------------------------
  // GET /competitions-public

  /**
   * The identifiers in scope in src/routes/userRoutes.js: `express`, `router` and the
   * names it imports from the middleware and the controllers. `query` is not among them.
   */
  const ModuleScope: set<string> := {
    "express", "router", "ensureAuthenticated", "uploadSubmission", "uploadProfile",
    "getDashboard", "getCompetitions", "getCompetition", "createSubmission", "getResults",
    "getSubmissions", "updateProfile", "uploadProfilePicture", "createPaymentOrder",
    "verifyPayment", "getSiteSettings"
  }

  /** The same scope with the database helper imported. */
  const CorrectedScope: set<string> := ModuleScope + {"query"}

  datatype Listing = Listed(ids: set<nat>) | Refused(response: Response)

  /** The competitions whose status is `'active'`. */
  function ActiveIds(competitions: map<nat, Competition>): (ids: set<nat>)
    ensures forall id :: id in ids <==> id in competitions && competitions[id].status == Str("active")
  {
    set id | id in competitions && competitions[id].status == Str("active")
  }

  /**
   * The inline handler: when `query` is not bound, the call throws a `ReferenceError`
   * inside the `try`, and the `catch` answers 500.
   */
  function PublicCompetitions(scope: set<string>, competitions: map<nat, Competition>): (r: Listing)
    ensures r.Refused? <==> "query" !in scope
    ensures r.Refused? ==> r.response == Response(ServerError, "Unable to fetch competitions.")
    ensures r.Listed? ==> r.ids == ActiveIds(competitions)
  {
    if "query" in scope then Listed(ActiveIds(competitions))
    else Refused(Response(ServerError, "Unable to fetch competitions."))
  }

  /** As written, the public listing answers 500 whatever the table holds. */
  lemma PublicCompetitionsAlwaysFails(competitions: map<nat, Competition>)
    ensures PublicCompetitions(ModuleScope, competitions) == Refused(Response(ServerError, "Unable to fetch competitions."))
  {
    assert "query" !in ModuleScope;
  }

  /** With `query` imported, the listing holds exactly the active competitions. */
  lemma PublicCompetitionsCorrected(competitions: map<nat, Competition>)
    ensures PublicCompetitions(CorrectedScope, competitions).Listed?
    ensures forall id :: id in PublicCompetitions(CorrectedScope, competitions).ids
              <==> id in competitions && competitions[id].status == Str("active")
  {
    assert "query" in CorrectedScope;
  }
}
