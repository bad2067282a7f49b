/** `BotFrameworkClientImpl.postActivity`: how a bot posts an activity to a skill.  The activity is
    readdressed in place for the request and put back afterwards.  Creating credentials, signing,
    serialising and fetching are opaque: whether credentials could be created and what the HTTP
    exchange gave back arrive as parameters. */
module BotFrameworkClient {
  import opened Wrappers
  import opened Schema

  /** The status and parsed body of the skill's reply. */
  datatype InvokeResponse = InvokeResponse(status: int, body: Json)

  /** What the request sent to the skill says about the fields this model follows. */
  datatype Request = Request(
    url: string,
    conversationId: string,
    serviceUrl: Option<string>,
    relatesTo: Option<ConversationReference>,
    recipientRole: Option<string>)

  /** The reference back to the caller's conversation that the request carries: the activity's
      own service URL, id, channel and conversation fields, with no bot. */
  function RelatesTo(serviceUrl: Option<string>, activityId: Option<string>, channelId: Option<string>,
                     conversation: ConversationAccountData): (r: ConversationReference)
    ensures r.serviceUrl == serviceUrl && r.activityId == activityId && r.channelId == channelId
    ensures r.conversation == Some(conversation) && r.bot.None?
  {
    ConversationReference(activityId, None, Some(conversation), channelId, serviceUrl)
  }

  /** The request `postActivity` builds for `activity`, from the activity as it was on entry. */
  function ExpectedRequest(toUrl: string, serviceUrl: string, conversationId: string,
                           activityServiceUrl: Option<string>, activityId: Option<string>,
                           channelId: Option<string>, conversation: ConversationAccountData): Request
  {
    Request(toUrl, conversationId, Some(serviceUrl),
            Some(RelatesTo(activityServiceUrl, activityId, channelId, conversation)), Some(SkillRole))
  }

  class BotFrameworkClientImpl {
    const loginEndpoint: string

    constructor (loginEndpoint: string)
      ensures this.loginEndpoint == loginEndpoint
    {
      this.loginEndpoint := loginEndpoint;
    }

    /** `postActivity` as written.  `credentialsError` is what `createCredentials` threw, if it
        threw; `exchange` is the outcome of signing, fetching and parsing the reply.  On every exit
        the activity and its conversation are as on entry, but a recipient that existed on entry
        keeps the `skill` role the request gave it. */
    method PostActivity(toUrl: string, serviceUrl: string, conversationId: string, activity: Activity,
                        credentialsError: Option<Error>, exchange: Result<InvokeResponse, Error>)
      returns (r: Result<InvokeResponse, Error>, sent: Option<Request>)
      modifies activity, activity.conversation, activity.recipient
      ensures credentialsError.Some? ==> r == Failure(credentialsError.value) && sent.None?
      ensures credentialsError.None? ==>
        r == exchange &&
        sent == Some(ExpectedRequest(toUrl, serviceUrl, conversationId, old(activity.serviceUrl),
                                     old(activity.id), old(activity.channelId), old(activity.conversation.Data())))
      ensures unchanged(activity)
      ensures unchanged(activity.conversation)
      ensures activity.recipient != null && credentialsError.None? ==>
        activity.recipient.role == Some(SkillRole) &&
        activity.recipient.id == old(activity.recipient.id) &&
        activity.recipient.name == old(activity.recipient.name) &&
        activity.recipient.aadObjectId == old(activity.recipient.aadObjectId)
      ensures activity.recipient != null && credentialsError.Some? ==> unchanged(activity.recipient)
    {
      if credentialsError.Some? {
        return Failure(credentialsError.value), None;
      }

      var originalConversationId := activity.conversation.id;
      var originalServiceUrl := activity.serviceUrl;
      var originalRelatesTo := activity.relatesTo;
      var originalRecipient := activity.recipient;

      activity.relatesTo := Some(RelatesTo(activity.serviceUrl, activity.id, activity.channelId,
                                           activity.conversation.Data()));
      activity.conversation.id := conversationId;
      activity.serviceUrl := Some(serviceUrl);
      if activity.recipient == null {
        activity.recipient := new ChannelAccount.Empty();
      }
      activity.recipient.role := Some(SkillRole);

      sent := Some(Request(toUrl, activity.conversation.id, activity.serviceUrl, activity.relatesTo,
                           activity.recipient.role));
      r := exchange;

      activity.conversation.id := originalConversationId;
      activity.serviceUrl := originalServiceUrl;
      activity.relatesTo := originalRelatesTo;
      activity.recipient := originalRecipient;
    }

    /** `postActivity` restoring the recipient's role as well, so that the caller's activity and
        everything it points to are as on entry. */
    method PostActivityRestoringRole(toUrl: string, serviceUrl: string, conversationId: string,
                                     activity: Activity, credentialsError: Option<Error>,
                                     exchange: Result<InvokeResponse, Error>)
      returns (r: Result<InvokeResponse, Error>, sent: Option<Request>)
      modifies activity, activity.conversation, activity.recipient
      ensures credentialsError.Some? ==> r == Failure(credentialsError.value) && sent.None?
      ensures credentialsError.None? ==>
        r == exchange &&
        sent == Some(ExpectedRequest(toUrl, serviceUrl, conversationId, old(activity.serviceUrl),
                                     old(activity.id), old(activity.channelId), old(activity.conversation.Data())))
      ensures unchanged(activity)
      ensures unchanged(activity.conversation)
      ensures activity.recipient != null ==> unchanged(activity.recipient)
    {
      if credentialsError.Some? {
        return Failure(credentialsError.value), None;
      }

      var originalConversationId := activity.conversation.id;
      var originalServiceUrl := activity.serviceUrl;
      var originalRelatesTo := activity.relatesTo;
      var originalRecipient := activity.recipient;
      var originalRole := if activity.recipient != null then activity.recipient.role else None;

      activity.relatesTo := Some(RelatesTo(activity.serviceUrl, activity.id, activity.channelId,
                                           activity.conversation.Data()));
      activity.conversation.id := conversationId;
      activity.serviceUrl := Some(serviceUrl);
      if activity.recipient == null {
        activity.recipient := new ChannelAccount.Empty();
      }
      activity.recipient.role := Some(SkillRole);

      sent := Some(Request(toUrl, activity.conversation.id, activity.serviceUrl, activity.relatesTo,
                           activity.recipient.role));
      r := exchange;

      activity.recipient.role := originalRole;
      activity.conversation.id := originalConversationId;
      activity.serviceUrl := originalServiceUrl;
      activity.relatesTo := originalRelatesTo;
      activity.recipient := originalRecipient;
    }
  }

  /** A user's activity posted as written: its recipient object comes back with role `skill`. */
  method RecipientRoleSurvivesPost(exchange: Result<InvokeResponse, Error>)
    returns (before: Option<string>, after: Option<string>)
    ensures before == Some("user") && after == Some(SkillRole)
  {
    var conversation := new ConversationAccount(ConversationAccountData("c1", None, None, None, None, None, None, None));
    var recipient := new ChannelAccount.Empty();
    recipient.role := Some("user");
    var activity := new Activity(conversation, recipient);
    before := activity.recipient.role;
    var client := new BotFrameworkClientImpl("https://login.example");
    var r, sent := client.PostActivity("https://skill.example/api/messages", "https://host.example",
                                       "skill-conversation", activity, None, exchange);
    after := recipient.role;
  }

  /** The same post with the role restored: the recipient object comes back as it went in. */
  method RecipientRoleRestoredByCorrectedPost(exchange: Result<InvokeResponse, Error>)
    returns (before: Option<string>, after: Option<string>)
    ensures before == Some("user") && after == before
  {
    var conversation := new ConversationAccount(ConversationAccountData("c1", None, None, None, None, None, None, None));
    var recipient := new ChannelAccount.Empty();
    recipient.role := Some("user");
    var activity := new Activity(conversation, recipient);
    before := activity.recipient.role;
    var client := new BotFrameworkClientImpl("https://login.example");
    var r, sent := client.PostActivityRestoringRole("https://skill.example/api/messages", "https://host.example",
                                                    "skill-conversation", activity, None, exchange);
    after := recipient.role;
  }
}
