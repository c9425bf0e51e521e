/**
 * The state-changing handlers of src/controllers/adminController.js over the
 * `competitions`, `submissions`, `winners` and `site_settings` tables. The read-only
 * listing handlers are not part of this model.
 */
module AdminController {
  import opened Wrappers
  import opened Js
  import opened Http
  import opened Sql
  import opened Store
  import opened UploadMiddleware
  import opened JsonPath

  // ---------------------------------------------------------------------------
  // createCompetition

  /** The body fields `createCompetition` reads. */
  datatype CompetitionInput = CompetitionInput(
    title: JsVal, description: JsVal, isPaid: JsVal, fee: JsVal, whatsappLink: JsVal,
    status: JsVal, startDate: JsVal, endDate: JsVal)

  /** The row `createCompetition` inserts, with its defaults. */
  function NewCompetition(input: CompetitionInput, file: Option<StoredFile>, adminId: JsVal): (c: Competition)
    ensures c.isPaid == Bool(true) <==> input.isPaid in {Str("true"), Bool(true)}
    ensures c.isPaid in {Bool(true), Bool(false)}
    ensures c.fee == (if Truthy(input.fee) then input.fee else Num(0))
    ensures c.status == (if Truthy(input.status) then input.status else Str("draft"))
    ensures c.startDate == (if Truthy(input.startDate) then input.startDate else Null)
    ensures c.endDate == (if Truthy(input.endDate) then input.endDate else Null)
    ensures c.thumbnail != Null <==> file.Some?
    ensures file.Some? ==> c.thumbnail == Str("/uploads/competitions/" + file.value.filename)
    ensures c.title == input.title && c.description == input.description
    ensures c.whatsappLink == input.whatsappLink && c.createdBy == adminId
  {
    assert file.Some? ==> UploadedPath("competitions", file) == Str("/uploads/competitions/" + file.value.filename) by {
      assert "/uploads/" + "competitions" + "/" == "/uploads/competitions/";
    }
    Competition(
      input.title,
      input.description,
      Bool(input.isPaid == Str("true") || input.isPaid == Bool(true)),
      Or(input.fee, Num(0)),
      input.whatsappLink,
      Or(input.status, Str("draft")),
      Or(input.startDate, Null),
      Or(input.endDate, Null),
      UploadedPath("competitions", file),
      adminId)
  }

  /** The values the INSERT binds, in column order. */
  function CompetitionValues(c: Competition): seq<JsVal> {
    [c.title, c.description, c.isPaid, c.fee, c.whatsappLink, c.status, c.startDate, c.endDate, c.thumbnail, c.createdBy]
  }

  method CreateCompetition(db: Db, adminId: JsVal, input: CompetitionInput, file: Option<StoredFile>)
    returns (res: Response)
    requires db.Valid()
    modifies db`competitions, db`nextCompetitionId
    ensures db.Valid()
    ensures var row := NewCompetition(input, file, adminId);
            if BindsDefined(CompetitionValues(row)) then
              && db.competitions == old(db.competitions)[old(db.nextCompetitionId) := row]
              && db.nextCompetitionId == old(db.nextCompetitionId) + 1
              && res == Response(Created, "Competition created.")
            else
              && db.competitions == old(db.competitions) && db.nextCompetitionId == old(db.nextCompetitionId)
              && res == Response(ServerError, "Unable to create competition.")
  {
    var row := NewCompetition(input, file, adminId);
    if !BindsDefined(CompetitionValues(row)) {
      return Response(ServerError, "Unable to create competition.");
    }
    db.competitions := db.competitions[db.nextCompetitionId := row];
    db.nextCompetitionId := db.nextCompetitionId + 1;
    res := Response(Created, "Competition created.");
  }

  // ---------------------------------------------------------------------------
  // updateCompetition

  /** The body fields `updateCompetition` reads (under their column names). */
  datatype CompetitionPatch = CompetitionPatch(
    title: JsVal, description: JsVal, isPaid: JsVal, fee: JsVal, whatsappLink: JsVal,
    status: JsVal, startDate: JsVal, endDate: JsVal)

  /**
   * The intended effect of `updateCompetition` on one row, field by field: a field whose
   * input is null or undefined keeps its value, any other input (an empty string too)
   * replaces it; the thumbnail changes only when a file came with the request.
   */
  function MergeCompetition(c: Competition, p: CompetitionPatch, file: Option<StoredFile>): (r: Competition)
    ensures r.title == (if IsNullish(p.title) then c.title else p.title)
    ensures r.description == (if IsNullish(p.description) then c.description else p.description)
    ensures r.isPaid == (if IsNullish(p.isPaid) then c.isPaid else p.isPaid)
    ensures r.fee == (if IsNullish(p.fee) then c.fee else p.fee)
    ensures r.whatsappLink == (if IsNullish(p.whatsappLink) then c.whatsappLink else p.whatsappLink)
    ensures r.status == (if IsNullish(p.status) then c.status else p.status)
    ensures r.startDate == (if IsNullish(p.startDate) then c.startDate else p.startDate)
    ensures r.endDate == (if IsNullish(p.endDate) then c.endDate else p.endDate)
    ensures r.thumbnail == (if file.Some? then Str("/uploads/competitions/" + file.value.filename) else c.thumbnail)
    ensures r.createdBy == c.createdBy
  {
    assert file.Some? ==> UploadedPath("competitions", file) == Str("/uploads/competitions/" + file.value.filename) by {
      assert "/uploads/" + "competitions" + "/" == "/uploads/competitions/";
    }
    Competition(KeepIfNullish(p.title, c.title),
                KeepIfNullish(p.description, c.description),
                KeepIfNullish(p.isPaid, c.isPaid),
                KeepIfNullish(p.fee, c.fee),
                KeepIfNullish(p.whatsappLink, c.whatsappLink),
                KeepIfNullish(p.status, c.status),
                KeepIfNullish(p.startDate, c.startDate),
                KeepIfNullish(p.endDate, c.endDate),
                if file.Some? then UploadedPath("competitions", file) else c.thumbnail,
                c.createdBy)
  }

  datatype CompetitionColumn =
    Title | Description | IsPaid | Fee | WhatsappLink | Status | StartDate | EndDate | Thumbnail

  function CompetitionColumnValue(c: Competition, col: CompetitionColumn): JsVal {
    match col
    case Title => c.title
    case Description => c.description
    case IsPaid => c.isPaid
    case Fee => c.fee
    case WhatsappLink => c.whatsappLink
    case Status => c.status
    case StartDate => c.startDate
    case EndDate => c.endDate
    case Thumbnail => c.thumbnail
  }

  function WithCompetitionColumn(c: Competition, col: CompetitionColumn, v: JsVal): Competition {
    match col
    case Title => c.(title := v)
    case Description => c.(description := v)
    case IsPaid => c.(isPaid := v)
    case Fee => c.(fee := v)
    case WhatsappLink => c.(whatsappLink := v)
    case Status => c.(status := v)
    case StartDate => c.(startDate := v)
    case EndDate => c.(endDate := v)
    case Thumbnail => c.(thumbnail := v)
  }

  /** The SET list of the UPDATE: eight COALESCE columns, then `thumbnail = ?` when a file came. */
  function CompetitionSets(hasFile: bool): seq<Assign<CompetitionColumn>> {
    [CoalesceInto(Title), CoalesceInto(Description), CoalesceInto(IsPaid), CoalesceInto(Fee),
     CoalesceInto(WhatsappLink), CoalesceInto(Status), CoalesceInto(StartDate), CoalesceInto(EndDate)]
    + (if hasFile then [SetTo(Thumbnail)] else [])
  }

  /** What each placeholder of the UPDATE must receive: one value per `?`, the id last. */
  predicate IsCompetitionParams(p: CompetitionPatch, file: Option<StoredFile>, id: JsVal, params: seq<JsVal>) {
    && |params| == |CompetitionSets(file.Some?)| + 1
    && params[0] == Coalesce(p.title, Null)
    && params[1] == Coalesce(p.description, Null)
    && params[2] == (if p.isPaid.Undefined? then Null else p.isPaid)
    && params[3] == Coalesce(p.fee, Null)
    && params[4] == Coalesce(p.whatsappLink, Null)
    && params[5] == Coalesce(p.status, Null)
    && params[6] == Coalesce(p.startDate, Null)
    && params[7] == Coalesce(p.endDate, Null)
    && (file.Some? ==> params[8] == UploadedPath("competitions", file))
    && params[|params| - 1] == id
  }

  /** Building `params` with the two pushes of the handler. */
  method BuildCompetitionParams(p: CompetitionPatch, file: Option<StoredFile>, id: JsVal)
    returns (params: seq<JsVal>)
    ensures IsCompetitionParams(p, file, id, params)
    ensures BindsDefined(params) <==> id != Undefined
  {
    params := [
      Coalesce(p.title, Null),
      Coalesce(p.description, Null),
      if p.isPaid.Undefined? then Null else p.isPaid,
      Coalesce(p.fee, Null),
      Coalesce(p.whatsappLink, Null),
      Coalesce(p.status, Null),
      Coalesce(p.startDate, Null),
      Coalesce(p.endDate, Null)
    ];
    if file.Some? {
      params := params + [UploadedPath("competitions", file)];
    }
    params := params + [id];
  }

  /** The row after the eight `col = COALESCE(?, col)` entries, each taking its own placeholder. */
  function CoalescedPrefix(c: Competition, params: seq<JsVal>): Competition
    requires |params| >= 8
  {
    c.(title := SqlCoalesce(params[0], c.title),
       description := SqlCoalesce(params[1], c.description),
       isPaid := SqlCoalesce(params[2], c.isPaid),
       fee := SqlCoalesce(params[3], c.fee),
       whatsappLink := SqlCoalesce(params[4], c.whatsappLink),
       status := SqlCoalesce(params[5], c.status),
       startDate := SqlCoalesce(params[6], c.startDate),
       endDate := SqlCoalesce(params[7], c.endDate))
  }

  /** The title, description, paid-flag and fee entries, applied one by one. */
  lemma {:induction false} CompetitionFirstHalf(c: Competition, sets: seq<Assign<CompetitionColumn>>, params: seq<JsVal>)
    requires |sets| >= 8 && |params| >= |sets|
    requires sets[0] == CoalesceInto(Title) && sets[1] == CoalesceInto(Description)
    requires sets[2] == CoalesceInto(IsPaid) && sets[3] == CoalesceInto(Fee)
    ensures ExecSets(c, sets, params, CompetitionColumnValue, WithCompetitionColumn)
            == ExecSets(c.(title := SqlCoalesce(params[0], c.title),
                           description := SqlCoalesce(params[1], c.description),
                           isPaid := SqlCoalesce(params[2], c.isPaid),
                           fee := SqlCoalesce(params[3], c.fee)),
                        sets[4..], params[4..], CompetitionColumnValue, WithCompetitionColumn)
  {
    var c1 := c.(title := SqlCoalesce(params[0], c.title));
    var c2 := c1.(description := SqlCoalesce(params[1], c.description));
    var c3 := c2.(isPaid := SqlCoalesce(params[2], c.isPaid));
    var c4 := c3.(fee := SqlCoalesce(params[3], c.fee));
    assert sets[0..] == sets && params[0..] == params;
    ExecSetsStep(c, sets, params, 0, CompetitionColumnValue, WithCompetitionColumn, c1);
    ExecSetsStep(c1, sets, params, 1, CompetitionColumnValue, WithCompetitionColumn, c2);
    ExecSetsStep(c2, sets, params, 2, CompetitionColumnValue, WithCompetitionColumn, c3);
    ExecSetsStep(c3, sets, params, 3, CompetitionColumnValue, WithCompetitionColumn, c4);
  }

  /** The link, status and date entries, applied one by one. */
  lemma {:induction false} CompetitionSecondHalf(d: Competition, sets: seq<Assign<CompetitionColumn>>, params: seq<JsVal>)
    requires |sets| >= 8 && |params| >= |sets|
    requires sets[4] == CoalesceInto(WhatsappLink) && sets[5] == CoalesceInto(Status)
    requires sets[6] == CoalesceInto(StartDate) && sets[7] == CoalesceInto(EndDate)
    ensures ExecSets(d, sets[4..], params[4..], CompetitionColumnValue, WithCompetitionColumn)
            == ExecSets(d.(whatsappLink := SqlCoalesce(params[4], d.whatsappLink),
                           status := SqlCoalesce(params[5], d.status),
                           startDate := SqlCoalesce(params[6], d.startDate),
                           endDate := SqlCoalesce(params[7], d.endDate)),
                        sets[8..], params[8..], CompetitionColumnValue, WithCompetitionColumn)
  {
    var d5 := d.(whatsappLink := SqlCoalesce(params[4], d.whatsappLink));
    var d6 := d5.(status := SqlCoalesce(params[5], d.status));
    var d7 := d6.(startDate := SqlCoalesce(params[6], d.startDate));
    var d8 := d7.(endDate := SqlCoalesce(params[7], d.endDate));
    ExecSetsStep(d, sets, params, 4, CompetitionColumnValue, WithCompetitionColumn, d5);
    ExecSetsStep(d5, sets, params, 5, CompetitionColumnValue, WithCompetitionColumn, d6);
    ExecSetsStep(d6, sets, params, 6, CompetitionColumnValue, WithCompetitionColumn, d7);
    ExecSetsStep(d7, sets, params, 7, CompetitionColumnValue, WithCompetitionColumn, d8);
  }

  /** The first eight entries of the SET list, applied one by one. */
  lemma {:induction false} CompetitionPrefix(c: Competition, sets: seq<Assign<CompetitionColumn>>, params: seq<JsVal>)
    requires |sets| >= 8 && |params| >= |sets|
    requires sets[0] == CoalesceInto(Title) && sets[1] == CoalesceInto(Description)
    requires sets[2] == CoalesceInto(IsPaid) && sets[3] == CoalesceInto(Fee)
    requires sets[4] == CoalesceInto(WhatsappLink) && sets[5] == CoalesceInto(Status)
    requires sets[6] == CoalesceInto(StartDate) && sets[7] == CoalesceInto(EndDate)
    ensures ExecSets(c, sets, params, CompetitionColumnValue, WithCompetitionColumn)
            == ExecSets(CoalescedPrefix(c, params), sets[8..], params[8..], CompetitionColumnValue, WithCompetitionColumn)
  {
    var d := c.(title := SqlCoalesce(params[0], c.title),
                description := SqlCoalesce(params[1], c.description),
                isPaid := SqlCoalesce(params[2], c.isPaid),
                fee := SqlCoalesce(params[3], c.fee));
    CompetitionFirstHalf(c, sets, params);
    CompetitionSecondHalf(d, sets, params);
  }

  /**
   * The pushes line up with the placeholders: running the SET list over the bound
   * values gives the field-by-field merge.
   */
  lemma {:induction false} CompetitionBinding(c: Competition, p: CompetitionPatch, file: Option<StoredFile>,
                                              id: JsVal, params: seq<JsVal>)
    requires IsCompetitionParams(p, file, id, params)
    ensures ExecSets(c, CompetitionSets(file.Some?), params, CompetitionColumnValue, WithCompetitionColumn)
            == MergeCompetition(c, p, file)
  {
    var sets := CompetitionSets(file.Some?);
    CompetitionPrefix(c, sets, params);
    var c8 := CoalescedPrefix(c, params);
    assert params[2] == Coalesce(p.isPaid, Null);
    assert c8 == MergeCompetition(c, p, None);
    if file.Some? {
      var tail := sets[8..];
      assert tail == [SetTo(Thumbnail)] && tail[1..] == [];
      assert params[8..][0] == UploadedPath("competitions", file);
    } else {
      assert sets[8..] == [];
    }
  }

  method UpdateCompetition(db: Db, id: string, p: CompetitionPatch, file: Option<StoredFile>)
    returns (res: Response)
    requires db.Valid()
    modifies db`competitions
    ensures db.Valid()
    ensures db.competitions == UpdateWhereId(old(db.competitions), Str(id), c => MergeCompetition(c, p, file))
    ensures res == Response(Success, "Competition updated.")
  {
    var params := BuildCompetitionParams(p, file, Str(id));
    var sets := CompetitionSets(file.Some?);
    forall c ensures ExecSets(c, sets, params, CompetitionColumnValue, WithCompetitionColumn)
                     == MergeCompetition(c, p, file) {
      CompetitionBinding(c, p, file, Str(id), params);
    }
    db.competitions := UpdateWhereId(db.competitions, params[|params| - 1],
      c => ExecSets(c, sets, params, CompetitionColumnValue, WithCompetitionColumn));
    res := Response(Success, "Competition updated.");
  }

  /** Applying the same update twice changes nothing more than applying it once. */
  lemma MergeCompetitionIdempotent(c: Competition, p: CompetitionPatch, file: Option<StoredFile>)
    ensures MergeCompetition(MergeCompetition(c, p, file), p, file) == MergeCompetition(c, p, file)
  {
  }

  /** An update with every field missing and no file leaves the row as it was. */
  lemma EmptyPatchKeepsCompetition(c: Competition)
    ensures MergeCompetition(c, CompetitionPatch(Undefined, Undefined, Undefined, Undefined, Undefined,
                                                 Undefined, Undefined, Undefined), None) == c
  {
  }

  // ---------------------------------------------------------------------------
  // Deletions and the submission status

  method DeleteCompetition(db: Db, id: string) returns (res: Response)
    requires db.Valid()
    modifies db`competitions
    ensures db.Valid()
    ensures db.competitions == DeleteWhereId(old(db.competitions), Str(id))
    ensures AsId(Str(id)).Some? ==> AsId(Str(id)).value !in db.competitions
    ensures res == Response(Success, "Competition removed.")
  {
    db.competitions := DeleteWhereId(db.competitions, Str(id));
    res := Response(Success, "Competition removed.");
  }

  /** `status` comes from the body as is: without one the driver refuses the bind. */
  method UpdateSubmissionStatus(db: Db, id: string, status: JsVal) returns (res: Response)
    requires db.Valid()
    modifies db`submissions
    ensures db.Valid()
    ensures status == Undefined ==>
              db.submissions == old(db.submissions) && res == Response(ServerError, "Unable to update submission.")
    ensures status != Undefined ==>
              && db.submissions == UpdateWhereId(old(db.submissions), Str(id), (s: Submission) => s.(status := status))
              && res == Response(Success, "Submission updated.")
  {
    if !BindsDefined([status, Str(id)]) {
      return Response(ServerError, "Unable to update submission.");
    }
    db.submissions := UpdateWhereId(db.submissions, Str(id), (s: Submission) => s.(status := status));
    res := Response(Success, "Submission updated.");
  }

  method DeleteSubmission(db: Db, id: string) returns (res: Response)
    requires db.Valid()
    modifies db`submissions
    ensures db.Valid()
    ensures db.submissions == DeleteWhereId(old(db.submissions), Str(id))
    ensures res == Response(Success, "Submission deleted.")
  {
    db.submissions := DeleteWhereId(db.submissions, Str(id));
    res := Response(Success, "Submission deleted.");
  }

  // ---------------------------------------------------------------------------
  // Winners

  /** The body fields `addWinner` reads. */
  datatype WinnerInput = WinnerInput(competitionId: JsVal, studentName: JsVal, school: JsVal, highlightText: JsVal)

  /** The row `addWinner` inserts: a falsy competition id becomes NULL, the media path comes from the upload. */
  function NewWinner(input: WinnerInput, file: Option<StoredFile>): (w: Winner)
    ensures Truthy(w.competitionId) <==> Truthy(input.competitionId)
    ensures Truthy(input.competitionId) ==> w.competitionId == input.competitionId
    ensures !Truthy(input.competitionId) ==> w.competitionId == Null
    ensures w.mediaPath.Null? <==> file.None?
    ensures file.Some? ==> w.mediaPath == Str("/uploads/winners/" + file.value.filename)
    ensures w.studentName == input.studentName && w.school == input.school && w.highlightText == input.highlightText
  {
    assert file.Some? ==> UploadedPath("winners", file) == Str("/uploads/winners/" + file.value.filename) by {
      assert "/uploads/" + "winners" + "/" == "/uploads/winners/";
    }
    Winner(Or(input.competitionId, Null), input.studentName, input.school,
           UploadedPath("winners", file), input.highlightText)
  }

  function WinnerValues(w: Winner): seq<JsVal> {
    [w.competitionId, w.studentName, w.school, w.mediaPath, w.highlightText]
  }

  /** Only the name, school and highlight can stop the insert: the id and media path are never `undefined`. */
  lemma WinnerBindsDefined(input: WinnerInput, file: Option<StoredFile>)
    ensures BindsDefined(WinnerValues(NewWinner(input, file)))
            <==> Undefined !in [input.studentName, input.school, input.highlightText]
  {
    var w := NewWinner(input, file);
    assert w.competitionId != Undefined && w.mediaPath != Undefined;
  }

  method AddWinner(db: Db, input: WinnerInput, file: Option<StoredFile>) returns (res: Response)
    requires db.Valid()
    modifies db`winners, db`nextWinnerId
    ensures db.Valid()
    ensures var row := NewWinner(input, file);
            if BindsDefined(WinnerValues(row)) then
              && db.winners == old(db.winners)[old(db.nextWinnerId) := row]
              && db.nextWinnerId == old(db.nextWinnerId) + 1
              && res == Response(Created, "Winner added.")
            else
              && db.winners == old(db.winners) && db.nextWinnerId == old(db.nextWinnerId)
              && res == Response(ServerError, "Unable to add winner.")
  {
    var row := NewWinner(input, file);
    if !BindsDefined(WinnerValues(row)) {
      return Response(ServerError, "Unable to add winner.");
    }
    db.winners := db.winners[db.nextWinnerId := row];
    db.nextWinnerId := db.nextWinnerId + 1;
    res := Response(Created, "Winner added.");
  }

  method RemoveWinner(db: Db, id: string) returns (res: Response)
    requires db.Valid()
    modifies db`winners
    ensures db.Valid()
    ensures db.winners == DeleteWhereId(old(db.winners), Str(id))
    ensures res == Response(Success, "Winner removed.")
  {
    db.winners := DeleteWhereId(db.winners, Str(id));
    res := Response(Success, "Winner removed.");
  }

  // ---------------------------------------------------------------------------
  // Site settings

  /**
   * The effect of `updateSiteSettings` on the settings row: the two texts under the
   * `??` merge, the features document only when it is truthy (the column keeps the
   * document `JSON.stringify` wrote, modelled as the document itself), the logo only
   * with an upload.
   */
  function MergeSiteSettings(s: SiteSettings, affiliateText: JsVal, aboutContent: JsVal, features: JsVal,
                             file: Option<StoredFile>): (r: SiteSettings)
    ensures r.affiliateText == (if IsNullish(affiliateText) then s.affiliateText else affiliateText)
    ensures r.aboutContent == (if IsNullish(aboutContent) then s.aboutContent else aboutContent)
    ensures r.features == (if Truthy(features) then features else s.features)
    ensures r.logoPath == (if file.Some? then Str("/uploads/logos/" + file.value.filename) else s.logoPath)
  {
    assert file.Some? ==> UploadedPath("logos", file) == Str("/uploads/logos/" + file.value.filename) by {
      assert "/uploads/" + "logos" + "/" == "/uploads/logos/";
    }
    SiteSettings(
      if file.Some? then UploadedPath("logos", file) else s.logoPath,
      KeepIfNullish(affiliateText, s.affiliateText),
      KeepIfNullish(aboutContent, s.aboutContent),
      KeepIfFalsy(features, s.features))
  }

  /** `UPDATE site_settings ... WHERE id = 1`: row 1 changes, when it exists, and nothing else. */
  function UpdateSettingsRow(settings: map<nat, SiteSettings>, f: SiteSettings -> SiteSettings)
    : (r: map<nat, SiteSettings>)
    ensures r.Keys == settings.Keys
    ensures SettingsRowId in settings ==> r[SettingsRowId] == f(settings[SettingsRowId])
    ensures forall k :: k in settings && k != SettingsRowId ==> r[k] == settings[k]
  {
    UpdateWhereId(settings, Num(SettingsRowId), f)
  }

  datatype SettingsColumn = AffiliateText | AboutContent | Features | LogoPath

  function SettingsColumnValue(s: SiteSettings, col: SettingsColumn): JsVal {
    match col
    case AffiliateText => s.affiliateText
    case AboutContent => s.aboutContent
    case Features => s.features
    case LogoPath => s.logoPath
  }

  function WithSettingsColumn(s: SiteSettings, col: SettingsColumn, v: JsVal): SiteSettings {
    match col
    case AffiliateText => s.(affiliateText := v)
    case AboutContent => s.(aboutContent := v)
    case Features => s.(features := v)
    case LogoPath => s.(logoPath := v)
  }

  /** The SET list: three COALESCE columns, then `logo_path = ?` when a logo came. */
  function SettingsSets(hasFile: bool): seq<Assign<SettingsColumn>> {
    [CoalesceInto(AffiliateText), CoalesceInto(AboutContent), CoalesceInto(Features)]
    + (if hasFile then [SetTo(LogoPath)] else [])
  }

  /** Building `params`: three defaulted values, then the logo path pushed when a file came. */
  method BuildSettingsParams(affiliateText: JsVal, aboutContent: JsVal, features: JsVal, file: Option<StoredFile>)
    returns (params: seq<JsVal>)
    ensures |params| == |SettingsSets(file.Some?)|
    ensures params[..3] == [Coalesce(affiliateText, Null), Coalesce(aboutContent, Null), Or(features, Null)]
    ensures file.Some? ==> params[3] == UploadedPath("logos", file)
    ensures BindsDefined(params)
  {
    params := [Coalesce(affiliateText, Null), Coalesce(aboutContent, Null), if Truthy(features) then features else Null];
    if file.Some? {
      params := params + [UploadedPath("logos", file)];
    }
  }

  /** The pushed values line up with the placeholders: the SET list performs the merge. */
  lemma {:induction false} SettingsBinding(s: SiteSettings, affiliateText: JsVal, aboutContent: JsVal, features: JsVal,
                                           file: Option<StoredFile>, params: seq<JsVal>)
    requires |params| == |SettingsSets(file.Some?)|
    requires params[..3] == [Coalesce(affiliateText, Null), Coalesce(aboutContent, Null), Or(features, Null)]
    requires file.Some? ==> params[3] == UploadedPath("logos", file)
    ensures ExecSets(s, SettingsSets(file.Some?), params, SettingsColumnValue, WithSettingsColumn)
            == MergeSiteSettings(s, affiliateText, aboutContent, features, file)
  {
    var sets := SettingsSets(file.Some?);
    assert sets[0] == CoalesceInto(AffiliateText) && sets[1] == CoalesceInto(AboutContent);
    assert sets[2] == CoalesceInto(Features);
    assert params[0] == Coalesce(affiliateText, Null) && params[1] == Coalesce(aboutContent, Null);
    assert params[2] == Or(features, Null);
    var s1 := s.(affiliateText := SqlCoalesce(params[0], s.affiliateText));
    var s2 := s1.(aboutContent := SqlCoalesce(params[1], s.aboutContent));
    var s3 := s2.(features := SqlCoalesce(params[2], s.features));
    assert sets[0..] == sets && params[0..] == params;
    ExecSetsStep(s, sets, params, 0, SettingsColumnValue, WithSettingsColumn, s1);
    ExecSetsStep(s1, sets, params, 1, SettingsColumnValue, WithSettingsColumn, s2);
    ExecSetsStep(s2, sets, params, 2, SettingsColumnValue, WithSettingsColumn, s3);
    if file.Some? {
      assert sets[3] == SetTo(LogoPath);
      ExecSetsStep(s3, sets, params, 3, SettingsColumnValue, WithSettingsColumn, s3.(logoPath := params[3]));
      assert sets[4..] == [];
    } else {
      assert sets[3..] == [];
    }
  }

  /** Every bound value is `??`-defaulted, stringified or a path, so the update always runs. */
  method UpdateSiteSettings(db: Db, affiliateText: JsVal, aboutContent: JsVal, features: JsVal,
                            file: Option<StoredFile>) returns (res: Response)
    requires db.Valid()
    modifies db`settings
    ensures db.Valid()
    ensures db.settings == UpdateSettingsRow(old(db.settings),
                             s => MergeSiteSettings(s, affiliateText, aboutContent, features, file))
    ensures res == Response(Success, "Site settings updated.")
  {
    var params := BuildSettingsParams(affiliateText, aboutContent, features, file);
    var sets := SettingsSets(file.Some?);
    forall s ensures ExecSets(s, sets, params, SettingsColumnValue, WithSettingsColumn)
                     == MergeSiteSettings(s, affiliateText, aboutContent, features, file) {
      SettingsBinding(s, affiliateText, aboutContent, features, file, params);
    }
    db.settings := UpdateSettingsRow(db.settings,
                     s => ExecSets(s, sets, params, SettingsColumnValue, WithSettingsColumn));
    res := Response(Success, "Site settings updated.");
  }

  /** An empty form (no texts, no features, no file) leaves the settings as they were. */
  lemma EmptySettingsFormKeepsSettings(s: SiteSettings)
    ensures MergeSiteSettings(s, Undefined, Undefined, Undefined, None) == s
  {
  }

  /** `getSiteSettings`: the settings row, `undefined` when there is none. */
  function GetSiteSettings(settings: map<nat, SiteSettings>): (r: Option<SiteSettings>)
    ensures r.Some? <==> SettingsRowId in settings
    ensures r.Some? ==> r.value == settings[SettingsRowId]
  {
    if SettingsRowId in settings then Some(settings[SettingsRowId]) else None
  }

  /** What an update leaves for the next `getSiteSettings` to read. */
  lemma SettingsReadBack(settings: map<nat, SiteSettings>, affiliateText: JsVal, aboutContent: JsVal,
                         features: JsVal, file: Option<StoredFile>)
    requires SettingsRowId in settings
    ensures GetSiteSettings(UpdateSettingsRow(settings, s => MergeSiteSettings(s, affiliateText, aboutContent, features, file)))
            == Some(MergeSiteSettings(settings[SettingsRowId], affiliateText, aboutContent, features, file))
  {
  }

  /** `enabled === 'true' || enabled === true`. */
  predicate FeatureOn(enabled: JsVal) {
    enabled == Str("true") || enabled == Bool(true)
  }

  /** The features document after `JSON_SET(features, '$.<key>', on)`, or `None` when MySQL rejects the path. */
  function ToggledFeatures(features: JsVal, key: JsVal, enabled: JsVal): (r: Option<JsVal>)
    ensures r.None? <==> MemberPath(ToText(key)).None?
    ensures r.Some? ==> GetAfterSetHolds(features, MemberPath(ToText(key)).value, Bool(FeatureOn(enabled)), r.value)
  {
    var path := MemberPath(ToText(key));
    if path.None? then None
    else
      GetAfterSet(features, path.value, Bool(FeatureOn(enabled)));
      Some(SetPath(features, path.value, Bool(FeatureOn(enabled))))
  }

  /** The new document reads back the flag where the parents exist, and is unchanged otherwise. */
  predicate GetAfterSetHolds(doc: JsVal, path: seq<string>, v: JsVal, after: JsVal)
    requires |path| >= 1
  {
    && (ParentsExist(doc, path) ==> GetPath(after, path) == Some(v))
    && (!ParentsExist(doc, path) ==> after == doc)
  }

  method ToggleFeature(db: Db, key: JsVal, enabled: JsVal) returns (res: Response)
    requires db.Valid()
    modifies db`settings
    ensures db.Valid()
    ensures var path := MemberPath(ToText(key));
            if path.None? then
              db.settings == old(db.settings) && res == Response(ServerError, "Unable to toggle feature.")
            else
              && db.settings == UpdateSettingsRow(old(db.settings),
                                  (s: SiteSettings) => s.(features := SetPath(s.features, path.value, Bool(FeatureOn(enabled)))))
              && res == Response(Success, "Feature flag updated.")
  {
    var path := MemberPath(ToText(key));
    if path.None? {
      return Response(ServerError, "Unable to toggle feature.");
    }
    var on := enabled == Str("true") || enabled == Bool(true);
    db.settings := UpdateSettingsRow(db.settings, (s: SiteSettings) => s.(features := SetPath(s.features, path.value, Bool(on))));
    res := Response(Success, "Feature flag updated.");
  }

  /** Toggling a plain flag on an object document sets that one member and keeps the rest. */
  lemma ToggleSingleFlag(fields: map<string, JsVal>, key: string, enabled: JsVal)
    requires IsIdentifier(key)
    ensures ToggledFeatures(Obj(fields), Str(key), enabled) == Some(Obj(fields[key := Bool(FeatureOn(enabled))]))
  {
    assert '.' !in key by {
      if '.' in key {
        var i :| 0 <= i < |key| && key[i] == '.';
      }
    }
  }
}
