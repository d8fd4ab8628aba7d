/** The owner's dashboard (app/dashboard/page.tsx): the pro check, the embed
    snippet, the response-count label, the message chosen when an upgrade
    fails, and the feedback list the page keeps in step with the table. */
module Dashboard {
  import opened Common
  import opened Store
  import Checkout

  // ---------------------------------------------------------------------
  // Plan badge

  /** `userData?.plan === 'pro'` on the answer of the plan read: a failed
      read counts as not pro, and of the three plans only `pro` shows as
      pro, so a lifetime buyer does not. */
  function IsPro(userData: Result<UserRow, DbError>): (pro: bool)
    ensures pro <==> userData.Success? && userData.value.plan == Pro
  {
    userData.Success? && PlanName(userData.value.plan) == "pro"
  }

  // ---------------------------------------------------------------------
  // Embed snippet

  const EmbedHead: string := "<script src=\"https://quickfeedback.co/widget.js\" data-project-id=\""
  const ProAttribute: string := " data-pro=\"true\""
  const EmbedTail: string := "></script>"

  /** `user?.id || ''`. */
  function ProjectId(userId: Option<string>): (id: string)
    ensures Truthy(userId) ==> id == userId.value
    ensures !Truthy(userId) ==> id == ""
  {
    OrDefault(userId, "")
  }

  /** The snippet the owner copies into a site. */
  function EmbedCode(userId: Option<string>, isPro: bool): (code: string)
    ensures |code| >= |EmbedHead| + |EmbedTail| && code[..|EmbedHead|] == EmbedHead
    ensures code[|code| - |EmbedTail|..] == EmbedTail
  {
    EmbedHead + ProjectId(userId) + "\"" + (if isPro then ProAttribute else "") + EmbedTail
  }

  /** What a reader of a snippet sees: the project id and the pro flag. */
  datatype Embed = Embed(projectId: string, pro: bool)

  /** The text before the first double quote. */
  function UntilQuote(s: string): string {
    if s == [] || s[0] == '"' then [] else [s[0]] + UntilQuote(s[1..])
  }

  /** The text after the first double quote (empty when there is none). */
  function AfterQuote(s: string): string {
    if s == [] then [] else if s[0] == '"' then s[1..] else AfterQuote(s[1..])
  }

  lemma {:induction false} SplitAtQuote(a: string, b: string)
    requires '"' !in a
    ensures UntilQuote(a + "\"" + b) == a && AfterQuote(a + "\"" + b) == b
  {
    if a != [] {
      assert (a + "\"" + b)[1..] == a[1..] + "\"" + b;
      SplitAtQuote(a[1..], b);
    }
  }

  /** Reads a snippet back: the attribute value after `data-project-id="`,
      then either the pro attribute or the end of the tag. */
  function ParseEmbed(code: string): Option<Embed> {
    if |code| < |EmbedHead| || code[..|EmbedHead|] != EmbedHead then None
    else
      var rest := code[|EmbedHead|..];
      var tail := AfterQuote(rest);
      if tail == EmbedTail then Some(Embed(UntilQuote(rest), false))
      else if tail == ProAttribute + EmbedTail then Some(Embed(UntilQuote(rest), true))
      else None
  }

  /** The snippet carries the user's id (or nothing) as the project id, and
      the pro attribute exactly when the user is pro. The id must not contain
      a double quote, which would end the attribute early; ids are UUIDs. */
  lemma {:induction false} EmbedRoundTrip(userId: Option<string>, isPro: bool)
    requires '"' !in ProjectId(userId)
    ensures ParseEmbed(EmbedCode(userId, isPro)) == Some(Embed(ProjectId(userId), isPro))
  {
    var id := ProjectId(userId);
    var after := (if isPro then ProAttribute else "") + EmbedTail;
    var code := EmbedCode(userId, isPro);
    assert code == EmbedHead + (id + "\"" + after);
    assert code[|EmbedHead|..] == id + "\"" + after;
    SplitAtQuote(id, after);
  }

  /** A pro snippet contains the pro attribute as a substring. */
  lemma ProEmbedContainsAttribute(userId: Option<string>)
    ensures Contains(EmbedCode(userId, true), ProAttribute)
  {
    var id := ProjectId(userId);
    var code := EmbedCode(userId, true);
    var at := |EmbedHead| + |id| + 1;
    assert code == (EmbedHead + id + "\"") + ProAttribute + EmbedTail;
    assert code[at..at + |ProAttribute|] == ProAttribute;
    assert OccursAt(code, ProAttribute, at);
  }

  // ---------------------------------------------------------------------
  // Response count

  /** "1 response", "0 responses", "2 responses". */
  function CountLabel(n: nat): (word: string)
    ensures word == "response" <==> n == 1
    ensures word == "responses" <==> n != 1
  {
    if n == 1 then "response" else "responses"
  }

  // ---------------------------------------------------------------------
  // Upgrade

  /** The signed-in user as the page holds it. */
  datatype PageUser = PageUser(id: Option<string>, email: Option<string>)

  /** The JSON fields of an answer of the checkout endpoint that the page reads. */
  datatype ResponseData = ResponseData(
    error: Option<string>,
    message: Option<string>,
    details: Option<string>,
    url: Option<string>)

  /** An HTTP answer: `data` is None when the text is not JSON, and
      `dataJson` stands for `JSON.stringify(data)`. */
  datatype HttpResponse = HttpResponse(
    status: nat,
    statusText: string,
    text: string,
    data: Option<ResponseData>,
    dataJson: string)

  datatype FetchAnswer = Responded(response: HttpResponse) | FetchThrew(message: string)

  datatype UpgradeResult = RedirectTo(url: string) | Alert(text: string)

  const MissingUserInfo: string := "Error: Could not get user information. Please reload the page and try again."
  const MissingUserId: string := "Error: Could not get user ID. Please reload the page and try again."
  const NotConfiguredMessage: string := "Error: Stripe is not configured. Please contact the administrator."
  const IncompleteConfigMessage: string := "Error: Incomplete server configuration. Please contact the administrator."

  /** `response.ok`. */
  predicate Ok(status: nat) {
    200 <= status <= 299
  }

  /** The message of a failed answer: the first non-empty of `error`,
      `message` and `details`, else the status line. */
  function ServerErrorMessage(status: nat, statusText: string, data: ResponseData): (m: string)
    ensures Truthy(data.error) ==> m == data.error.value
    ensures !Truthy(data.error) && Truthy(data.message) ==> m == data.message.value
    ensures !Truthy(data.error) && !Truthy(data.message) && Truthy(data.details) ==> m == data.details.value
    ensures !Truthy(data.error) && !Truthy(data.message) && !Truthy(data.details) ==>
      m == "Error " + Decimal(status) + ": " + statusText
  {
    OrDefault(OrElse(OrElse(data.error, data.message), data.details),
      "Error " + Decimal(status) + ": " + statusText)
  }

  /** The rewording of a failure message for status 500; other statuses
      keep the message as it is. */
  function FriendlyMessage(status: nat, m: string): (f: string)
    ensures status != 500 ==> f == m
    ensures status == 500 && Contains(m, NotConfiguredHint) ==> f == NotConfiguredMessage
    ensures status == 500 && !Contains(m, NotConfiguredHint) && Contains(m, PublicUrlHint) ==>
      f == IncompleteConfigMessage
    ensures status == 500 && !Contains(m, NotConfiguredHint) && !Contains(m, PublicUrlHint) ==>
      f == "Server error: " + m
  {
    if status != 500 then m
    else if Contains(m, NotConfiguredHint) then NotConfiguredMessage
    else if Contains(m, PublicUrlHint) then IncompleteConfigMessage
    else "Server error: " + m
  }

  /** The alert for any failure after the request was sent. */
  function FailureAlert(m: string): string {
    "Error: " + m + "\n\nPlease check the browser console (F12) for more details."
  }

  function Prefix200(s: string): (p: string)
    ensures |p| == if |s| < 200 then |s| else 200
    ensures p <= s
  {
    if |s| < 200 then s else s[..200]
  }

  /** What clicking "upgrade" ends in: a redirect to the payment page or an
      alert. `answer` is what `fetch` gave when it was called. */
  function Upgrade(user: Option<PageUser>, answer: FetchAnswer): (r: UpgradeResult)
    ensures r.RedirectTo? <==>
      && user.Some? && Truthy(user.value.email) && Truthy(user.value.id)
      && answer.Responded? && Ok(answer.response.status) && answer.response.data.Some?
      && !Truthy(answer.response.data.value.error) && Truthy(answer.response.data.value.url)
    ensures r.RedirectTo? ==> r.url == answer.response.data.value.url.value
    ensures user.None? || !Truthy(user.value.email) ==> r == Alert(MissingUserInfo)
    ensures user.Some? && Truthy(user.value.email) && !Truthy(user.value.id) ==> r == Alert(MissingUserId)
    ensures user.Some? && Truthy(user.value.email) && Truthy(user.value.id) && answer.Responded? ==>
      var resp := answer.response;
      && (resp.data.None? ==> r == Alert(FailureAlert("Server error: " + Prefix200(resp.text))))
      && (resp.data.Some? && !Ok(resp.status) ==>
            r == Alert(FailureAlert(FriendlyMessage(resp.status,
                   ServerErrorMessage(resp.status, resp.statusText, resp.data.value)))))
  {
    if user.None? || !Truthy(user.value.email) then Alert(MissingUserInfo)
    else if !Truthy(user.value.id) then Alert(MissingUserId)
    else match answer
      case FetchThrew(m) => Alert(FailureAlert(m))
      case Responded(resp) =>
        if resp.data.None? then Alert(FailureAlert("Server error: " + Prefix200(resp.text)))
        else
          var data := resp.data.value;
          if !Ok(resp.status) then
            Alert(FailureAlert(FriendlyMessage(resp.status, ServerErrorMessage(resp.status, resp.statusText, data))))
          else if Truthy(data.error) then Alert(FailureAlert(data.error.value))
          else if Truthy(data.url) then RedirectTo(data.url.value)
          else Alert(FailureAlert("Stripe payment URL not received. Response: " + resp.dataJson))
  }

  /** The request body the page sends: only the id and e-mail, so the
      checkout endpoint always builds the monthly subscription and never a
      coupon. */
  function UpgradeRequest(u: PageUser): (b: Checkout.CheckoutBody)
    ensures Checkout.NormalizedPlan(b.planType) == Checkout.ProMonthly
    ensures b.couponCode.None? && b.userId == u.id && b.email == u.email
  {
    Checkout.CheckoutBody(u.id, u.email, None, None)
  }

  /** The JSON the checkout endpoint sends, as the page reads it. */
  function DataOf(body: Checkout.ReplyBody): ResponseData {
    match body
    case SessionCreated(_, url) => ResponseData(None, None, None, Some(url))
    case ErrorBody(error, details) => ResponseData(Some(error), None, details, None)
  }

  const NotConfiguredHint: string := "Stripe is not configured"
  const PublicUrlHint: string := "NEXT_PUBLIC_URL"

  /** The missing-key message contains the first hint. */
  lemma SecretKeyMessageHasHint()
    ensures Contains(Checkout.SecretKeyMissing, NotConfiguredHint)
  {
    var key := Checkout.SecretKeyMissing;
    assert key == NotConfiguredHint + " correctly. Please verify that STRIPE_SECRET_KEY is set in Vercel.";
    assert OccursAt(key, NotConfiguredHint, 0);
  }

  /** The missing-URL message contains the second hint and not the first. */
  lemma PublicUrlMessageHasHint()
    ensures !Contains(Checkout.PublicUrlMissing, NotConfiguredHint)
    ensures Contains(Checkout.PublicUrlMissing, PublicUrlHint)
  {
    var url := Checkout.PublicUrlMissing;
    assert url == PublicUrlHint + " is not configured";
    forall i | 0 <= i <= |url| - |NotConfiguredHint| ensures !OccursAt(url, NotConfiguredHint, i) {
      assert url[i..i + |NotConfiguredHint|][0] == url[i] != 'S';
    }
    assert OccursAt(url, PublicUrlHint, 0);
  }

  /** The checkout endpoint's missing-key error reaches the owner as the
      administrator message about the processor. */
  lemma SecretKeyErrorIsReworded(u: PageUser, statusText: string, text: string, dataJson: string)
    requires Truthy(u.email) && Truthy(u.id)
    ensures var data := DataOf(Checkout.ErrorBody(Checkout.SecretKeyMissing, None));
      Upgrade(Some(u), Responded(HttpResponse(500, statusText, text, Some(data), dataJson)))
        == Alert(FailureAlert(NotConfiguredMessage))
  {
    var data := DataOf(Checkout.ErrorBody(Checkout.SecretKeyMissing, None));
    assert ServerErrorMessage(500, statusText, data) == Checkout.SecretKeyMissing;
    SecretKeyMessageHasHint();
  }

  /** The checkout endpoint's missing-URL error reaches the owner as the
      administrator message about the server configuration. */
  lemma PublicUrlErrorIsReworded(u: PageUser, statusText: string, text: string, dataJson: string)
    requires Truthy(u.email) && Truthy(u.id)
    ensures var data := DataOf(Checkout.ErrorBody(Checkout.PublicUrlMissing, None));
      Upgrade(Some(u), Responded(HttpResponse(500, statusText, text, Some(data), dataJson)))
        == Alert(FailureAlert(IncompleteConfigMessage))
  {
    var data := DataOf(Checkout.ErrorBody(Checkout.PublicUrlMissing, None));
    assert ServerErrorMessage(500, statusText, data) == Checkout.PublicUrlMissing;
    PublicUrlMessageHasHint();
    assert FriendlyMessage(500, Checkout.PublicUrlMissing) == IncompleteConfigMessage;
  }

  /** A created session sends the owner to its payment page. */
  lemma CreatedSessionRedirects(u: PageUser, id: string, url: string, statusText: string, text: string, dataJson: string)
    requires Truthy(u.email) && Truthy(u.id) && url != ""
    ensures var data := DataOf(Checkout.SessionCreated(id, url));
      Upgrade(Some(u), Responded(HttpResponse(200, statusText, text, Some(data), dataJson))) == RedirectTo(url)
  {
  }

  // ---------------------------------------------------------------------
  // The feedback list

  /** The page's list holds exactly the owner's rows of the table. */
  ghost predicate InSync(list: seq<FeedbackRow>, table: seq<FeedbackRow>, owner: string) {
    forall f :: f in list <==> f in table && f.userId == owner
  }

  /** A freshly loaded list holds exactly the owner's rows. */
  lemma LoadedListIsInSync(table: seq<FeedbackRow>, owner: string)
    ensures InSync(SortNewestFirst(OwnedBy(table, owner)), table, owner)
  {
    SortKeepsMembers(OwnedBy(table, owner));
  }

  /** The state the dashboard keeps. */
  class DashboardState {
    var userId: Option<string>
    var feedbackList: seq<FeedbackRow>
    var deletingId: Option<string>
    var isProUser: bool
    var loading: bool

    constructor()
      ensures userId.None? && feedbackList == [] && deletingId.None? && !isProUser && loading
    {
      userId, feedbackList, deletingId, isProUser, loading := None, [], None, false, true;
    }

    /** `checkUser`: with no signed-in user the page goes to the sign-in
        route; otherwise it reads the plan and the owner's feedback. A failed
        plan read counts as not pro; a failed feedback read keeps the list. */
    method CheckUser(db: Database, signedIn: Option<string>, planFault: Option<DbError>, listFault: Option<DbError>)
      returns (redirect: Option<string>)
      modifies this
      ensures signedIn.None? ==>
        && redirect == Some("/auth") && userId == old(userId) && feedbackList == old(feedbackList)
        && isProUser == old(isProUser) && loading == old(loading)
      ensures signedIn.Some? ==>
        && redirect.None? && userId == signedIn && !loading
        && feedbackList == (if listFault.None? then SortNewestFirst(OwnedBy(db.feedback, signedIn.value)) else old(feedbackList))
        && (listFault.None? ==> InSync(feedbackList, db.feedback, signedIn.value))
      ensures signedIn.Some? ==>
        var row := if planFault.Some? then Failure(planFault.value) else Single(Matching(db.users, ById(signedIn.value)));
        isProUser == (row.Success? && row.value.plan == Pro)
      ensures deletingId == old(deletingId)
    {
      if signedIn.None? {
        return Some("/auth");
      }
      redirect := None;
      userId := signedIn;
      var userData := db.SelectUser(ById(signedIn.value), planFault);
      isProUser := IsPro(userData);
      LoadFeedback(db, signedIn.value, listFault);
      loading := false;
    }

    /** The feedback read of `checkUser`: the owner's rows, newest first,
        replace the list unless the read fails. */
    method LoadFeedback(db: Database, owner: string, listFault: Option<DbError>)
      modifies this
      ensures feedbackList == (if listFault.None? then SortNewestFirst(OwnedBy(db.feedback, owner)) else old(feedbackList))
      ensures listFault.None? ==> InSync(feedbackList, db.feedback, owner)
      ensures userId == old(userId) && isProUser == old(isProUser)
      ensures loading == old(loading) && deletingId == old(deletingId)
    {
      if listFault.None? {
        feedbackList := SortNewestFirst(OwnedBy(db.feedback, owner));
        LoadedListIsInSync(db.feedback, owner);
      }
    }

    /** `handleDelete(id)`: after the owner confirms, the row is deleted in
        the table and, if that worked, every list item with that id is
        dropped; either way the spinner ends cleared. */
    method HandleDelete(db: Database, id: string, confirmed: bool, fault: Option<DbError>)
      modifies this, db
      ensures db.users == old(db.users)
      ensures userId == old(userId) && isProUser == old(isProUser) && loading == old(loading)
      ensures !confirmed ==>
        db.feedback == old(db.feedback) && feedbackList == old(feedbackList) && deletingId == old(deletingId)
      ensures confirmed ==>
        && deletingId.None?
        && db.feedback == (if fault.None? then WithoutId(old(db.feedback), id) else old(db.feedback))
        && feedbackList == (if fault.None? then WithoutId(old(feedbackList), id) else old(feedbackList))
      ensures userId.Some? && InSync(old(feedbackList), old(db.feedback), userId.value) ==>
        InSync(feedbackList, db.feedback, userId.value)
    {
      if !confirmed {
        return;
      }
      deletingId := Some(id);
      var error := db.DeleteFeedback(id, fault);
      if error.Some? {
        deletingId := None;
        return;
      }
      feedbackList := WithoutId(feedbackList, id);
      deletingId := None;  // after the short delay in the source
    }
  }
}
