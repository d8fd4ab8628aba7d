/** The request the embeddable widget (public/widget.js) sends to the
    feedback endpoint, and what the endpoint does with it. The widget's
    markup, styles and events are not modelled. */
module Widget {
  import opened Common
  import opened Store
  import FeedbackApi
  import Dashboard

  /** The body the widget posts, as written: the three trimmed fields and
      the page address, and no project id. */
  function WidgetBody(name: string, email: string, message: string, siteUrl: string): (b: FeedbackApi.SubmitBody)
    ensures b.projectId.None?
    ensures b.name == Some(Trim(name)) && b.email == Some(Trim(email)) && b.message == Some(Trim(message))
  {
    FeedbackApi.SubmitBody(Some(Trim(name)), Some(Trim(email)), Some(Trim(message)), Some(siteUrl), None)
  }

  /** No widget submission is ever stored: with the fields filled in, the
      endpoint answers "Missing project ID". */
  lemma WidgetSubmissionsAreRejected(name: string, email: string, message: string, siteUrl: string)
    ensures FeedbackApi.CheckSubmission(WidgetBody(name, email, message, siteUrl)) != FeedbackApi.Valid
    ensures Trim(name) != "" && Trim(email) != "" && Trim(message) != "" ==>
      FeedbackApi.CheckSubmission(WidgetBody(name, email, message, siteUrl)) == FeedbackApi.MissingProjectId
  {
  }

  /** The body with the project id the snippet carries in `data-project-id`. */
  function WidgetBodyFor(projectId: Option<string>, name: string, email: string, message: string, siteUrl: string)
    : (b: FeedbackApi.SubmitBody)
    ensures b.projectId == projectId
    ensures b.name == Some(Trim(name)) && b.email == Some(Trim(email)) && b.message == Some(Trim(message))
  {
    FeedbackApi.SubmitBody(Some(Trim(name)), Some(Trim(email)), Some(Trim(message)), Some(siteUrl), projectId)
  }

  /** With the project id sent, a filled-in form passes the checks and the
      stored row belongs to that project. */
  lemma ProjectBodyIsAccepted(projectId: string, name: string, email: string, message: string, siteUrl: string, newId: string, now: int)
    requires projectId != "" && Trim(name) != "" && Trim(email) != "" && Trim(message) != ""
    ensures var b := WidgetBodyFor(Some(projectId), name, email, message, siteUrl);
      && FeedbackApi.CheckSubmission(b) == FeedbackApi.Valid
      && FeedbackApi.NewFeedbackRow(b, newId, now).userId == projectId
  {
  }

  /** End to end: a submission through an owner's snippet lands in that
      owner's dashboard list once stored. */
  lemma {:induction false} SnippetFeedbackReachesOwner(
    ownerId: string, isPro: bool, table: seq<FeedbackRow>,
    name: string, email: string, message: string, siteUrl: string, newId: string, now: int)
    requires ownerId != "" && '"' !in ownerId
    requires Trim(name) != "" && Trim(email) != "" && Trim(message) != ""
    ensures var embed := Dashboard.ParseEmbed(Dashboard.EmbedCode(Some(ownerId), isPro));
      && embed.Some?
      && var b := WidgetBodyFor(Some(embed.value.projectId), name, email, message, siteUrl);
         && FeedbackApi.CheckSubmission(b) == FeedbackApi.Valid
         && var row := FeedbackApi.NewFeedbackRow(b, newId, now);
            row in SortNewestFirst(OwnedBy(table + [row], ownerId))
  {
    Dashboard.EmbedRoundTrip(Some(ownerId), isPro);
    var b := WidgetBodyFor(Some(ownerId), name, email, message, siteUrl);
    ProjectBodyIsAccepted(ownerId, name, email, message, siteUrl, newId, now);
    FeedbackApi.SubmittedFeedbackIsListedForOwner(table, b, newId, now);
  }
}
