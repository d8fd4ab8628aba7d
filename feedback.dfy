/** The feedback endpoint (app/api/feedback/route.ts): POST validates a
    submission, stores it with its owner and notifies by e-mail; GET lists
    stored feedback, optionally for one owner, newest first; OPTIONS answers
    the CORS preflight. E-mail delivery is a parameter whose outcome the
    handler ignores. */
module FeedbackApi {
  import opened Common
  import opened Store

  /** The notification address used when the owner's e-mail cannot be found. */
  const FallbackOwnerEmail: string := "fatitalo84@gmail.com"
  const Sender: string := "QuickFeedback <onboarding@resend.dev>"

  /** The three CORS headers every reply of this route carries. */
  function CorsHeaders(): (h: map<string, string>)
    ensures h.Keys == {"Access-Control-Allow-Origin", "Access-Control-Allow-Methods", "Access-Control-Allow-Headers"}
    ensures h["Access-Control-Allow-Origin"] == "*"
  {
    map[
      "Access-Control-Allow-Origin" := "*",
      "Access-Control-Allow-Methods" := "GET, POST, PUT, DELETE, OPTIONS",
      "Access-Control-Allow-Headers" := "Content-Type, Authorization"]
  }

  datatype SubmitBody = SubmitBody(
    name: Option<string>,
    email: Option<string>,
    message: Option<string>,
    siteUrl: Option<string>,
    projectId: Option<string>)

  datatype Body =
    | NoBody
    | Submitted(success: bool, message: string, data: Option<FeedbackRow>)
    | Listed(rows: seq<FeedbackRow>)
    | Failed(error: string)

  datatype Reply = Reply(status: nat, body: Body, headers: map<string, string>)

  /** An e-mail handed to the mail provider (the HTML body is not modelled). */
  datatype Email = Email(from: string, to: string, subject: string)

  datatype Validation = Valid | MissingFields | MissingProjectId

  /** The two checks of POST, in order: the three text fields, then the owner. */
  function CheckSubmission(b: SubmitBody): (v: Validation)
    ensures v == MissingFields <==> !Truthy(b.name) || !Truthy(b.email) || !Truthy(b.message)
    ensures v == MissingProjectId <==>
      Truthy(b.name) && Truthy(b.email) && Truthy(b.message) && !Truthy(b.projectId)
    ensures v == Valid <==>
      Truthy(b.name) && Truthy(b.email) && Truthy(b.message) && Truthy(b.projectId)
  {
    if !Truthy(b.name) || !Truthy(b.email) || !Truthy(b.message) then MissingFields
    else if !Truthy(b.projectId) then MissingProjectId
    else Valid
  }

  /** Where the owner notification goes: the e-mail of the user whose id is
      the project id, when the lookup yields a non-empty one, else the
      hard-coded fallback. */
  function OwnerEmail(users: seq<UserRow>, projectId: string, readConfigured: bool, lookupFault: Option<DbError>)
    : (to: string)
    ensures to != ""
    ensures to == FallbackOwnerEmail || exists i :: 0 <= i < |users| && users[i].id == projectId && users[i].email == to
    ensures !readConfigured || lookupFault.Some? ==> to == FallbackOwnerEmail
  {
    var userEmail := FallbackOwnerEmail;
    if !readConfigured || lookupFault.Some? then userEmail
    else
      match Single(Matching(users, ById(projectId)))
      case Success(u) =>
        assert u in Matching(users, ById(projectId));
        if u.email != "" then u.email else userEmail
      case Failure(_) => userEmail
  }

  /** The owner's address is used whenever the owner's row exists with an
      e-mail and the lookup works. */
  lemma OwnerEmailOfKnownOwner(users: seq<UserRow>, i: nat)
    requires UniqueIds(users) && i < |users| && users[i].email != ""
    ensures OwnerEmail(users, users[i].id, true, None) == users[i].email
  {
    MatchingById(users, i);
  }

  /** With no owner row (or no working lookup) the fallback address is used. */
  lemma OwnerEmailFallback(users: seq<UserRow>, projectId: string, readConfigured: bool, lookupFault: Option<DbError>)
    requires forall j :: 0 <= j < |users| ==> users[j].id != projectId
    ensures OwnerEmail(users, projectId, readConfigured, lookupFault) == FallbackOwnerEmail
  {
    FilterKeepsNone(users, (u: UserRow) => Selects(ById(projectId), u));
  }

  /** The row POST inserts: `site_url` is null for a falsy `siteUrl`, and the
      owner reference is the project id. */
  function NewFeedbackRow(b: SubmitBody, newId: string, now: int): (row: FeedbackRow)
    requires CheckSubmission(b) == Valid
    ensures row.userId == b.projectId.value
    ensures row.siteUrl == (if Truthy(b.siteUrl) then b.siteUrl else None)
    ensures row.name == b.name.value && row.email == b.email.value && row.message == b.message.value
  {
    FeedbackRow(newId, b.name.value, b.email.value, b.message.value,
      if Truthy(b.siteUrl) then b.siteUrl else None, b.projectId.value, now)
  }

  function SubmitReply(status: nat, success: bool, message: string, data: Option<FeedbackRow>): Reply {
    Reply(status, Submitted(success, message, data), CorsHeaders())
  }

  /** POST /api/feedback. `body` is None when it is not JSON. `newId` and `now`
      are the id and timestamp the database assigns; `send` is the mail
      provider, whose failures are caught and logged. `emails` lists the
      messages handed to it. */
  method PostFeedback(
    db: Database,
    body: Option<SubmitBody>,
    readConfigured: bool,
    lookupFault: Option<DbError>,
    newId: string,
    now: int,
    insertFault: Option<DbError>,
    send: Email -> bool)
    returns (reply: Reply, emails: seq<Email>)
    modifies db
    ensures reply.headers == CorsHeaders()
    ensures db.users == old(db.users)
    ensures body.None? ==>
      reply == SubmitReply(500, false, "Error processing feedback", None) &&
      db.feedback == old(db.feedback) && emails == []
    ensures body.Some? && CheckSubmission(body.value) == MissingFields ==>
      reply == SubmitReply(400, false, "Missing required fields", None) &&
      db.feedback == old(db.feedback) && emails == []
    ensures body.Some? && CheckSubmission(body.value) == MissingProjectId ==>
      reply == SubmitReply(400, false, "Missing project ID", None) &&
      db.feedback == old(db.feedback) && emails == []
    ensures body.Some? && CheckSubmission(body.value) == Valid ==>
      var b := body.value;
      var row := NewFeedbackRow(b, newId, now);
      var inserted := Inserted(row, FeedbackIdTaken(old(db.feedback), newId), insertFault, "feedback");
      if inserted.Failure? then
        && reply == SubmitReply(500, false, "Error saving feedback: " + inserted.error.message, None)
        && db.feedback == old(db.feedback) && emails == []
      else
        && reply == SubmitReply(200, true, "Feedback submitted successfully", Some(row))
        && db.feedback == old(db.feedback) + [row]
        && emails == [
             Email(Sender, b.email.value, "Thanks for your feedback!"),
             Email(Sender, OwnerEmail(old(db.users), b.projectId.value, readConfigured, lookupFault),
               "New Feedback Received!")]
  {
    emails := [];
    if body.None? {
      return SubmitReply(500, false, "Error processing feedback", None), [];
    }
    var b := body.value;
    if !Truthy(b.name) || !Truthy(b.email) || !Truthy(b.message) {
      return SubmitReply(400, false, "Missing required fields", None), [];
    }
    if !Truthy(b.projectId) {
      return SubmitReply(400, false, "Missing project ID", None), [];
    }

    var userEmail := FallbackOwnerEmail;
    if readConfigured {
      var userData := db.SelectUser(ById(b.projectId.value), lookupFault);
      if userData.Success? && userData.value.email != "" {
        userEmail := userData.value.email;
      }
    }

    var result := db.InsertFeedback(NewFeedbackRow(b, newId, now), insertFault);
    if result.Failure? {
      return SubmitReply(500, false, "Error saving feedback: " + result.error.message, None), [];
    }

    var confirmation := Email(Sender, b.email.value, "Thanks for your feedback!");
    var delivered := send(confirmation);  // a failure is logged only
    var notification := Email(Sender, userEmail, "New Feedback Received!");
    delivered := send(notification);  // a failure is logged only
    emails := [confirmation, notification];
    reply := SubmitReply(200, true, "Feedback submitted successfully", Some(result.value));
  }

  /** GET /api/feedback?userId=…: every stored row (or every row of that
      owner), newest first. Reads only. */
  method ListFeedback(db: Database, userId: Option<string>, readConfigured: bool, queryFault: Option<DbError>)
    returns (reply: Reply)
    ensures reply.headers == CorsHeaders()
    ensures !readConfigured ==> reply == Reply(500, Failed("Server configuration error"), CorsHeaders())
    ensures readConfigured && queryFault.Some? ==>
      reply == Reply(500, Failed("Error fetching feedback: " + queryFault.value.message), CorsHeaders())
    ensures readConfigured && queryFault.None? ==>
      && reply.status == 200 && reply.body.Listed?
      && NewestFirst(reply.body.rows)
      && (forall r :: r in reply.body.rows <==>
            r in db.feedback && (Truthy(userId) ==> r.userId == userId.value))
      && multiset(reply.body.rows) ==
           multiset(if Truthy(userId) then OwnedBy(db.feedback, userId.value) else db.feedback)
  {
    if !readConfigured {
      return Reply(500, Failed("Server configuration error"), CorsHeaders());
    }
    var query := db.feedback;
    if Truthy(userId) {
      query := OwnedBy(query, userId.value);
    }
    if queryFault.Some? {
      return Reply(500, Failed("Error fetching feedback: " + queryFault.value.message), CorsHeaders());
    }
    var data := SortNewestFirst(query);
    SortKeepsMembers(query);
    reply := Reply(200, Listed(data), CorsHeaders());
  }

  /** OPTIONS /api/feedback: the preflight answer. */
  function Preflight(): (r: Reply)
    ensures r.status == 200 && r.body == NoBody && r.headers == CorsHeaders()
  {
    Reply(200, NoBody, CorsHeaders())
  }

  /** A submission that passes POST's checks and is stored shows up in the
      owner's listing. */
  lemma SubmittedFeedbackIsListedForOwner(before: seq<FeedbackRow>, b: SubmitBody, newId: string, now: int)
    requires CheckSubmission(b) == Valid
    ensures var row := NewFeedbackRow(b, newId, now);
      row in SortNewestFirst(OwnedBy(before + [row], b.projectId.value))
  {
    var row := NewFeedbackRow(b, newId, now);
    var owned := OwnedBy(before + [row], b.projectId.value);
    assert row in owned;
    assert row in multiset(SortNewestFirst(owned));
  }
}
