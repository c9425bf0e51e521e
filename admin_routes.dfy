/** src/routes/adminRoutes.js: every admin route, the guards before its handler. */
module AdminRoutes {
  import opened Http
  import opened AuthMiddleware
  import opened UploadMiddleware
  import opened Router

  datatype Handler =
    | GetAdminDashboard | GetCompetitions | CreateCompetition | UpdateCompetition | DeleteCompetition
    | ListSubmissions | UpdateSubmissionStatus | DeleteSubmission
    | AddWinner | RemoveWinner | ListWinners
    | UpdateSiteSettings | GetSiteSettings | ToggleFeature
    | ListStudents | GetPayments

  /** `adminGuard`: authenticate, then check the admin role. */
  const AdminGuard: seq<Step> := [Authenticate, RequireAdmin]

  const Routes: seq<Route<Handler>> := [
    Route(Get, "/dashboard", AdminGuard, GetAdminDashboard),
    Route(Get, "/competitions", AdminGuard, GetCompetitions),
    Route(Post, "/competitions", AdminGuard + [Upload(UploadCompetition, "thumbnail")], CreateCompetition),
    Route(Patch, "/competitions/:id", AdminGuard + [Upload(UploadCompetition, "thumbnail")], UpdateCompetition),
    Route(Delete, "/competitions/:id", AdminGuard, DeleteCompetition),
    Route(Get, "/submissions", AdminGuard, ListSubmissions),
    Route(Patch, "/submissions/:id", AdminGuard, UpdateSubmissionStatus),
    Route(Delete, "/submissions/:id", AdminGuard, DeleteSubmission),
    Route(Post, "/winners", AdminGuard + [Upload(UploadWinner, "media")], AddWinner),
    Route(Delete, "/winners/:id", AdminGuard, RemoveWinner),
    Route(Get, "/winners", AdminGuard, ListWinners),
    Route(Patch, "/settings", AdminGuard + [Upload(UploadLogo, "logo")], UpdateSiteSettings),
    Route(Get, "/settings", AdminGuard, GetSiteSettings),
    Route(Post, "/features/toggle", AdminGuard, ToggleFeature),
    Route(Get, "/students", AdminGuard, ListStudents),
    Route(Get, "/payments", AdminGuard, GetPayments)
  ]

  /** Every admin route starts with `adminGuard`, and everything after it is an upload. */
  predicate GuardedByAdminGuard(r: Route<Handler>) {
    |r.steps| >= 2 && r.steps[..2] == AdminGuard &&
    forall k :: 2 <= k < |r.steps| ==> r.steps[k].Upload?
  }

  lemma {:induction false} EveryRouteGuarded()
    ensures |Routes| == 16
    ensures forall i :: 0 <= i < |Routes| ==> GuardedByAdminGuard(Routes[i])
  {
    forall i | 0 <= i < |Routes| ensures GuardedByAdminGuard(Routes[i]) {
      var r := Routes[i];
      assert r.steps == AdminGuard || r.steps == AdminGuard + [r.steps[2]];
    }
  }

  /**
   * The composed outcome of a chain that starts with `adminGuard`: no user gives 401 from
   * the first guard, a non-admin user gives 403 from the second, and only an admin gets
   * past both.
   */
  lemma {:induction false} GuardedChainOutcome(steps: seq<Step>, req: Request)
    requires |steps| >= 2 && steps[..2] == AdminGuard
    ensures var r := RunChain(steps, req);
            && (!HasUser(req.session) ==> r == Halted(0, AuthRequired))
            && (HasUser(req.session) && !IsAdminSession(req.session) ==> r == Halted(1, AdminRequired))
            && (IsAdminSession(req.session) ==> r.Reached? || r.at >= 2)
  {
    assert steps[0] == Authenticate && steps[1] == RequireAdmin by {
      assert steps[..2][0] == steps[0] && steps[..2][1] == steps[1];
    }
  }

  /** Every admin route has the composed outcome of `adminGuard`. */
  lemma ComposedOutcome(i: nat, req: Request)
    requires i < |Routes|
    ensures var r := RunChain(Routes[i].steps, req);
            && (!HasUser(req.session) ==> r == Halted(0, AuthRequired))
            && (HasUser(req.session) && !IsAdminSession(req.session) ==> r == Halted(1, AdminRequired))
            && (IsAdminSession(req.session) ==> r.Reached? || r.at >= 2)
  {
    EveryRouteGuarded();
    GuardedChainOutcome(Routes[i].steps, req);
  }

  /** No admin handler runs without an admin session. */
  lemma NoHandlerWithoutAdmin(i: nat, req: Request)
    requires i < |Routes| && RunChain(Routes[i].steps, req).Reached?
    ensures IsAdminSession(req.session)
  {
    ComposedOutcome(i, req);
  }

  /** In a route guarded by `adminGuard`, an upload step comes after both guards and runs only for an admin. */
  lemma {:induction false} GuardedUpload(r: Route<Handler>, req: Request, k: nat)
    requires GuardedByAdminGuard(r) && k < |r.steps| && r.steps[k].Upload?
    requires Runs(r.steps, req, k)
    ensures k >= 2 && IsAdminSession(req.session)
  {
    assert r.steps[0] == Authenticate && r.steps[1] == RequireAdmin by {
      assert r.steps[..2][0] == r.steps[0] && r.steps[..2][1] == r.steps[1];
    }
    GuardedChainOutcome(r.steps, req);
  }

  /** The competition, winner and logo uploads run only after `adminGuard` has passed. */
  lemma UploadOnlyAfterAdminGuard(i: nat, req: Request, k: nat)
    requires i < |Routes| && k < |Routes[i].steps| && Routes[i].steps[k].Upload?
    requires Runs(Routes[i].steps, req, k)
    ensures k >= 2 && IsAdminSession(req.session)
  {
    EveryRouteGuarded();
    GuardedUpload(Routes[i], req, k);
  }

  /** The four routes that carry an upload, with their uploader and form field. */
  lemma UploadRoutes()
    ensures forall i :: 0 <= i < |Routes| && |Routes[i].steps| > 2 ==>
              i in {2, 3, 8, 11}
    ensures Routes[2].steps[2] == Upload(UploadCompetition, "thumbnail") && Routes[2].handler == CreateCompetition
    ensures Routes[3].steps[2] == Upload(UploadCompetition, "thumbnail") && Routes[3].handler == UpdateCompetition
    ensures Routes[8].steps[2] == Upload(UploadWinner, "media") && Routes[8].handler == AddWinner
    ensures Routes[11].steps[2] == Upload(UploadLogo, "logo") && Routes[11].handler == UpdateSiteSettings
  {
  }
}
