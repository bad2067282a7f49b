/** The skill handler (`SkillHandlerImpl`): how a root bot takes an activity a skill sent back,
    finds the conversation it belongs to, and either forwards it to the user or hands it to the
    bot's own logic.  The conversation-id factory, the adapter, the bot logic and the turn context's
    send/update/delete calls are collaborators this model leaves opaque: what they return (or
    throw) arrives as a parameter, and the calls the handler makes are recorded in order. */
module SkillHandler {
  import opened Wrappers
  import opened Schema

  /** The message of the error a factory or adapter throws for a method it does not implement. */
  const NotImplemented := "Not Implemented"
  const SkillReferenceNotFound := "skillConversationReference not found"
  const ReferenceNotFound := "conversationReference not found."
  /** `CallerIdConstants.BotToBotPrefix`. */
  const BotToBotPrefix := "urn:botframework:aadappid:"

  /** What the conversation-id factory stores for a skill conversation. */
  datatype SkillConversationReference =
    SkillConversationReference(conversationReference: Option<ConversationReference>, oAuthScope: Option<string>)

  /** What an awaited call did: returned a value or threw an error. */
  datatype Outcome<T> = Returned(value: T) | Threw(error: Error)

  /** What the collaborators do when the handler continues a conversation: the factory's
      `getSkillConversationReference`, its deprecated `getConversationReference`, the handler's
      `getOauthScope`, and whether `continueConversationWithClaims` throws before it runs the
      callback. */
  datatype Collaborators = Collaborators(
    lookup: Outcome<Option<SkillConversationReference>>,
    legacyLookup: Outcome<Option<ConversationReference>>,
    oAuthScope: Option<string>,
    adapterError: Option<Error>)

  /** A call the handler makes on a collaborator. */
  datatype Call =
    | DeleteConversationReference(conversationId: string)
    | RunLogic
    | SendActivity(activity: Activity)
    | UpdateActivity(activity: Activity)
    | DeleteActivity(activityId: string)

  /** What the awaited calls inside the `processActivity` callback do: whether the factory's
      `deleteConversationReference` throws, whether the bot logic throws, and what `sendActivity`
      returns or throws. */
  datatype TurnOutcomes = TurnOutcomes(
    deleteReference: Option<Error>,
    logic: Option<Error>,
    send: Outcome<Option<ResourceResponse>>)

  /** `getSkillConversationReference`: the factory's reference, or, when the factory does not
      implement that method, the deprecated conversation reference paired with the handler's OAuth
      scope.  A missing reference and a reference without a conversation reference are errors. */
  function GetSkillConversationReference(c: Collaborators): (r: Result<SkillConversationReference, Error>)
    ensures r.Success? ==> r.value.conversationReference.Some?
    ensures c.lookup == Returned(None) ==> r == Failure(Error(SkillReferenceNotFound))
    ensures c.lookup.Returned? && c.lookup.value.Some? ==>
      r == if c.lookup.value.value.conversationReference.Some? then Success(c.lookup.value.value)
           else Failure(Error(ReferenceNotFound))
    ensures c.lookup.Threw? && c.lookup.error.message != NotImplemented ==> r == Failure(c.lookup.error)
    ensures c.lookup.Threw? && c.lookup.error.message == NotImplemented ==>
      r == match c.legacyLookup
           case Threw(e) => Failure(e)
           case Returned(None) => Failure(Error(ReferenceNotFound))
           case Returned(Some(ref)) => Success(SkillConversationReference(Some(ref), c.oAuthScope))
  {
    var found: Result<Option<SkillConversationReference>, Error> :=
      match c.lookup
      case Returned(ref) => Success(ref)
      case Threw(err) =>
        if err.message == NotImplemented then
          match c.legacyLookup
          case Returned(ref) => Success(Some(SkillConversationReference(ref, c.oAuthScope)))
          case Threw(e) => Failure(e)
        else Failure(err);
    match found
    case Failure(e) => Failure(e)
    case Success(None) => Failure(Error(SkillReferenceNotFound))
    case Success(Some(ref)) =>
      if ref.conversationReference.None? then Failure(Error(ReferenceNotFound)) else Success(ref)
  }

  /** The deprecated lookup and the OAuth scope matter only when the factory reports
      `Not Implemented`. */
  lemma LegacyLookupOnlyAfterNotImplemented(c: Collaborators, d: Collaborators)
    requires c.lookup == d.lookup
    requires !(c.lookup.Threw? && c.lookup.error.message == NotImplemented)
    ensures GetSkillConversationReference(c) == GetSkillConversationReference(d)
  {
  }

  /** `continueConversation` up to the callback: the reference the callback receives, or the error
      the call ends with.  An error from the adapter is rethrown, also after the legacy path. */
  function ContinueConversation(c: Collaborators): (r: Result<SkillConversationReference, Error>)
    ensures r.Success? <==> GetSkillConversationReference(c).Success? && c.adapterError.None?
    ensures r.Success? ==> r == GetSkillConversationReference(c)
    ensures GetSkillConversationReference(c).Failure? ==> r == GetSkillConversationReference(c)
    ensures GetSkillConversationReference(c).Success? && c.adapterError.Some? ==> r == Failure(c.adapterError.value)
  {
    match GetSkillConversationReference(c)
    case Failure(e) => Failure(e)
    case Success(ref) => if c.adapterError.Some? then Failure(c.adapterError.value) else Success(ref)
  }

  /** Where `processActivity` sends an activity, by its type. */
  datatype Route = EndConversation | ForwardEvent | Send

  function RouteOf(activityType: Option<string>): (r: Route)
    ensures r == EndConversation <==> activityType == Some(EndOfConversationType)
    ensures r == ForwardEvent <==> activityType == Some(EventType)
    ensures r == Send <==> activityType != Some(EndOfConversationType) && activityType != Some(EventType)
  {
    if activityType == Some(EndOfConversationType) then EndConversation
    else if activityType == Some(EventType) then ForwardEvent
    else Send
  }

  /** The calls the `processActivity` callback makes on each route. */
  function CallsFor(route: Route, conversationId: string, activity: Activity): seq<Call> {
    match route
    case EndConversation => [DeleteConversationReference(conversationId), RunLogic]
    case ForwardEvent => [RunLogic]
    case Send => [SendActivity(activity)]
  }

  /** The conversation reference is deleted only for an end of conversation, and only the
      conversation being processed; the bot logic runs exactly when the activity is not sent. */
  lemma DeleteOnlyOnEndOfConversation(route: Route, conversationId: string, activity: Activity, id: string)
    ensures DeleteConversationReference(id) in CallsFor(route, conversationId, activity) <==>
            route == EndConversation && id == conversationId
    ensures RunLogic in CallsFor(route, conversationId, activity) <==> route != Send
    ensures SendActivity(activity) in CallsFor(route, conversationId, activity) <==> route == Send
  {
  }

  /** The calls the `processActivity` callback makes before it returns or throws: a failing
      `deleteConversationReference` ends the callback before the bot logic runs. */
  function TurnCalls(route: Route, conversationId: string, activity: Activity, t: TurnOutcomes): seq<Call> {
    match route
    case EndConversation =>
      [DeleteConversationReference(conversationId)] + (if t.deleteReference.Some? then [] else [RunLogic])
    case ForwardEvent => [RunLogic]
    case Send => [SendActivity(activity)]
  }

  /** How the `processActivity` callback ends: with the first error an awaited call throws, or
      with what `sendActivity` returned (nothing on the other routes). */
  function TurnResult(route: Route, t: TurnOutcomes): Result<Option<ResourceResponse>, Error> {
    match route
    case EndConversation =>
      if t.deleteReference.Some? then Failure(t.deleteReference.value)
      else if t.logic.Some? then Failure(t.logic.value)
      else Success(None)
    case ForwardEvent => if t.logic.Some? then Failure(t.logic.value) else Success(None)
    case Send =>
      match t.send
      case Threw(e) => Failure(e)
      case Returned(sent) => Success(sent)
  }

  /** Whether the callback transformed the context's activity before it ended: the event is
      always applied, the end of conversation only once the reference is deleted. */
  function Transformed(route: Route, t: TurnOutcomes): bool {
    route == ForwardEvent || (route == EndConversation && t.deleteReference.None?)
  }

  /** The calls a callback makes are a prefix of its route's calls: all of them when it
      succeeds, and one fewer exactly when deleting the reference fails.  It succeeds exactly
      when no call it makes throws. */
  lemma TurnCallsFollowRoute(route: Route, conversationId: string, activity: Activity, t: TurnOutcomes)
    ensures TurnCalls(route, conversationId, activity, t) <= CallsFor(route, conversationId, activity)
    ensures TurnResult(route, t).Success? ==>
      TurnCalls(route, conversationId, activity, t) == CallsFor(route, conversationId, activity)
    ensures |TurnCalls(route, conversationId, activity, t)| < |CallsFor(route, conversationId, activity)| <==>
      route == EndConversation && t.deleteReference.Some?
    ensures TurnResult(route, t).Success? <==>
      (route == Send ==> t.send.Returned?) &&
      (route != Send ==> t.logic.None?) &&
      (route == EndConversation ==> t.deleteReference.None?)
    ensures TurnResult(route, t).Success? && route != Send ==> TurnResult(route, t).value.None?
  {
    match route
    case EndConversation =>
      if t.deleteReference.Some? {
        assert TurnCalls(route, conversationId, activity, t) == CallsFor(route, conversationId, activity)[..1];
      }
    case ForwardEvent =>
    case Send =>
  }

  /** The handler's response: the one the adapter returned, else a response with `fallbackId` —
      a fresh id in `processActivity`, the updated activity's id in `onUpdateActivity`. */
  function ResponseOr(returned: Option<ResourceResponse>, fallbackId: string): (r: ResourceResponse)
    ensures returned.Some? ==> r == returned.value
    ensures returned.None? ==> r.id == fallbackId
  {
    if returned.Some? then returned.value else ResourceResponse(fallbackId)
  }

  /** What `processActivity` answers once the callback has ended: the callback's error, or the
      sent activity's response, else one with `freshId`. */
  function Answer(turn: Result<Option<ResourceResponse>, Error>, freshId: string): Result<ResourceResponse, Error> {
    match turn
    case Failure(e) => Failure(e)
    case Success(sent) => Success(ResponseOr(sent, freshId))
  }

  /** `processActivity` answers exactly when its callback succeeds.  An end of conversation or an
      event is answered with a fresh id; a sent activity with the response `sendActivity` gave,
      and with a fresh id only when it gave none. */
  lemma AnswerFallsBack(route: Route, t: TurnOutcomes, freshId: string)
    ensures Answer(TurnResult(route, t), freshId).Success? <==> TurnResult(route, t).Success?
    ensures route != Send && TurnResult(route, t).Success? ==>
      Answer(TurnResult(route, t), freshId) == Success(ResourceResponse(freshId))
    ensures route == Send && t.send.Returned? && t.send.value.Some? ==>
      Answer(TurnResult(route, t), freshId) == Success(t.send.value.value)
    ensures route == Send && t.send == Returned(None) ==>
      Answer(TurnResult(route, t), freshId) == Success(ResourceResponse(freshId))
  {
  }

  /** The fields `applyEoCToTurnContextActivity` copies, as equal in `target` and `source`. */
  predicate EndOfConversationCopied(target: Activity, source: Activity)
    reads target, source
  {
    target.activityType == source.activityType && target.text == source.text &&
    target.code == source.code && target.replyToId == source.replyToId &&
    target.value == source.value && target.entities == source.entities &&
    target.locale == source.locale && target.localTimestamp == source.localTimestamp &&
    target.timestamp == source.timestamp && target.channelData == source.channelData
  }

  /** The fields `applyEventToTurnContextActivity` copies, as equal in `target` and `source`. */
  predicate EventCopied(target: Activity, source: Activity)
    reads target, source
  {
    target.activityType == source.activityType && target.name == source.name &&
    target.value == source.value && target.relatesTo == source.relatesTo &&
    target.replyToId == source.replyToId && target.entities == source.entities &&
    target.locale == source.locale && target.localTimestamp == source.localTimestamp &&
    target.timestamp == source.timestamp && target.channelData == source.channelData
  }

  /** The addressing fields of `a` (service URL, channel, conversation, recipient), which neither
      the handler nor a transform writes, are as they were. */
  twostate predicate AddressKept(a: Activity)
    reads a
  {
    a.serviceUrl == old(a.serviceUrl) && a.channelId == old(a.channelId) &&
    a.conversation == old(a.conversation) && a.recipient == old(a.recipient)
  }

  /** Every field one of the two transforms could write is as it was. */
  twostate predicate ContentKept(a: Activity)
    reads a
  {
    a.activityType == old(a.activityType) && a.name == old(a.name) && a.text == old(a.text) &&
    a.code == old(a.code) && a.replyToId == old(a.replyToId) && a.value == old(a.value) &&
    a.entities == old(a.entities) && a.locale == old(a.locale) &&
    a.localTimestamp == old(a.localTimestamp) && a.timestamp == old(a.timestamp) &&
    a.channelData == old(a.channelData) && a.relatesTo == old(a.relatesTo)
  }

  /** The context's activity after the `processActivity` callback: `id` and `callerId` are set,
      the addressing is kept, and the fields are those the route's transform copied when it ran,
      or else as they were. */
  twostate predicate TurnApplied(a: Activity, newActivity: Activity, route: Route, transformed: bool,
                                 activityId: Option<string>, appId: string)
    reads a, newActivity
  {
    a.id == activityId && a.callerId == Some(BotToBotPrefix + appId) && AddressKept(a) &&
    (transformed && route == EndConversation ==>
      EndOfConversationCopied(a, newActivity) && a.name == old(a.name) && a.relatesTo == old(a.relatesTo)) &&
    (transformed && route == ForwardEvent ==>
      EventCopied(a, newActivity) && a.text == old(a.text) && a.code == old(a.code)) &&
    (!transformed ==> ContentKept(a))
  }

  /** The turn context of the continued conversation; only its activity is modelled. */
  class TurnContext {
    const activity: Activity

    constructor (activity: Activity)
      ensures this.activity == activity
    {
      this.activity := activity;
    }
  }

  class SkillHandlerImpl {
    /** The calls made on the factory, the bot logic and the turn context, oldest first. */
    var calls: seq<Call>

    constructor ()
      ensures calls == []
    {
      calls := [];
    }

    /** Turns the context's activity into the end-of-conversation activity: ten fields are copied,
        the rest (`id`, `name`, `relatesTo`, `callerId`, the addressing) stay. */
    static method ApplyEoCToTurnContextActivity(turnContext: TurnContext, endOfConversation: Activity)
      modifies turnContext.activity
      ensures EndOfConversationCopied(turnContext.activity, endOfConversation)
      ensures unchanged(endOfConversation)
      ensures turnContext.activity.id == old(turnContext.activity.id)
      ensures turnContext.activity.name == old(turnContext.activity.name)
      ensures turnContext.activity.relatesTo == old(turnContext.activity.relatesTo)
      ensures turnContext.activity.callerId == old(turnContext.activity.callerId)
      ensures AddressKept(turnContext.activity)
    {
      var a := turnContext.activity;
      a.activityType := endOfConversation.activityType;
      a.text := endOfConversation.text;
      a.code := endOfConversation.code;

      a.replyToId := endOfConversation.replyToId;
      a.value := endOfConversation.value;
      a.entities := endOfConversation.entities;
      a.locale := endOfConversation.locale;
      a.localTimestamp := endOfConversation.localTimestamp;
      a.timestamp := endOfConversation.timestamp;
      a.channelData := endOfConversation.channelData;
    }

    /** Turns the context's activity into the event activity: ten fields are copied (`value`
        twice, to the same effect), the rest (`id`, `text`, `code`, `callerId`, the addressing)
        stay. */
    static method ApplyEventToTurnContextActivity(turnContext: TurnContext, eventActivity: Activity)
      modifies turnContext.activity
      ensures EventCopied(turnContext.activity, eventActivity)
      ensures unchanged(eventActivity)
      ensures turnContext.activity.id == old(turnContext.activity.id)
      ensures turnContext.activity.text == old(turnContext.activity.text)
      ensures turnContext.activity.code == old(turnContext.activity.code)
      ensures turnContext.activity.callerId == old(turnContext.activity.callerId)
      ensures AddressKept(turnContext.activity)
    {
      var a := turnContext.activity;
      a.activityType := eventActivity.activityType;
      a.name := eventActivity.name;
      a.value := eventActivity.value;
      a.relatesTo := eventActivity.relatesTo;

      a.replyToId := eventActivity.replyToId;
      a.value := eventActivity.value;
      a.entities := eventActivity.entities;
      a.locale := eventActivity.locale;
      a.localTimestamp := eventActivity.localTimestamp;
      a.timestamp := eventActivity.timestamp;
      a.channelData := eventActivity.channelData;
    }

    /** The `processActivity` callback.  `newActivity` is the incoming activity with the stored
        conversation reference applied; `outcomes` says what the awaited calls do. */
    method ProcessTurn(context: TurnContext, newActivity: Activity, conversationId: string,
                       activityId: Option<string>, appId: string, outcomes: TurnOutcomes)
      returns (r: Result<Option<ResourceResponse>, Error>)
      requires newActivity != context.activity
      modifies this, context.activity
      ensures r == TurnResult(RouteOf(newActivity.activityType), outcomes)
      ensures calls == old(calls) + TurnCalls(RouteOf(newActivity.activityType), conversationId, newActivity, outcomes)
      ensures TurnApplied(context.activity, newActivity, RouteOf(newActivity.activityType),
                          Transformed(RouteOf(newActivity.activityType), outcomes), activityId, appId)
      ensures unchanged(newActivity)
    {
      context.activity.id := activityId;
      context.activity.callerId := Some(BotToBotPrefix + appId);
      match RouteOf(newActivity.activityType)
      case EndConversation =>
        calls := calls + [DeleteConversationReference(conversationId)];
        if outcomes.deleteReference.Some? {
          return Failure(outcomes.deleteReference.value);
        }
        ApplyEoCToTurnContextActivity(context, newActivity);
        calls := calls + [RunLogic];
        r := if outcomes.logic.Some? then Failure(outcomes.logic.value) else Success(None);
      case ForwardEvent =>
        ApplyEventToTurnContextActivity(context, newActivity);
        calls := calls + [RunLogic];
        r := if outcomes.logic.Some? then Failure(outcomes.logic.value) else Success(None);
      case Send =>
        calls := calls + [SendActivity(newActivity)];
        match outcomes.send
        case Threw(e) => r := Failure(e);
        case Returned(sent) => r := Success(sent);
    }

    /** `processActivity`: continue the conversation, run the callback, and answer with the sent
        activity's response or a fresh one.  Errors from the lookup or the adapter end the call
        before the callback, with nothing changed; an error inside the callback ends it with the
        calls made and the fields written so far, and without a response. */
    method ProcessActivity(c: Collaborators, conversationId: string, activityId: Option<string>,
                           context: TurnContext, newActivity: Activity, appId: string,
                           outcomes: TurnOutcomes, freshId: string)
      returns (r: Result<ResourceResponse, Error>)
      requires newActivity != context.activity
      modifies this, context.activity
      ensures ContinueConversation(c).Failure? ==>
        r == Failure(ContinueConversation(c).error) && calls == old(calls) && unchanged(context.activity)
      ensures ContinueConversation(c).Success? ==>
        r == Answer(TurnResult(RouteOf(newActivity.activityType), outcomes), freshId) &&
        calls == old(calls) + TurnCalls(RouteOf(newActivity.activityType), conversationId, newActivity, outcomes) &&
        TurnApplied(context.activity, newActivity, RouteOf(newActivity.activityType),
                    Transformed(RouteOf(newActivity.activityType), outcomes), activityId, appId)
      ensures unchanged(newActivity)
    {
      var ref := ContinueConversation(c);
      if ref.Failure? {
        return Failure(ref.error);
      }
      var turn := ProcessTurn(context, newActivity, conversationId, activityId, appId, outcomes);
      r := Answer(turn, freshId);
    }

    /** `onSendToConversation`: process the activity with no activity id. */
    method OnSendToConversation(c: Collaborators, conversationId: string, context: TurnContext,
                                newActivity: Activity, appId: string, outcomes: TurnOutcomes, freshId: string)
      returns (r: Result<ResourceResponse, Error>)
      requires newActivity != context.activity
      modifies this, context.activity
      ensures ContinueConversation(c).Failure? ==>
        r == Failure(ContinueConversation(c).error) && calls == old(calls) && unchanged(context.activity)
      ensures ContinueConversation(c).Success? ==>
        r == Answer(TurnResult(RouteOf(newActivity.activityType), outcomes), freshId) &&
        calls == old(calls) + TurnCalls(RouteOf(newActivity.activityType), conversationId, newActivity, outcomes) &&
        TurnApplied(context.activity, newActivity, RouteOf(newActivity.activityType),
                    Transformed(RouteOf(newActivity.activityType), outcomes), None, appId)
      ensures unchanged(newActivity)
    {
      r := ProcessActivity(c, conversationId, None, context, newActivity, appId, outcomes, freshId);
    }

    /** `onReplyToActivity`: process the activity as a reply to `activityId`. */
    method OnReplyToActivity(c: Collaborators, conversationId: string, activityId: string,
                             context: TurnContext, newActivity: Activity, appId: string,
                             outcomes: TurnOutcomes, freshId: string)
      returns (r: Result<ResourceResponse, Error>)
      requires newActivity != context.activity
      modifies this, context.activity
      ensures ContinueConversation(c).Failure? ==>
        r == Failure(ContinueConversation(c).error) && calls == old(calls) && unchanged(context.activity)
      ensures ContinueConversation(c).Success? ==>
        r == Answer(TurnResult(RouteOf(newActivity.activityType), outcomes), freshId) &&
        calls == old(calls) + TurnCalls(RouteOf(newActivity.activityType), conversationId, newActivity, outcomes) &&
        TurnApplied(context.activity, newActivity, RouteOf(newActivity.activityType),
                    Transformed(RouteOf(newActivity.activityType), outcomes), Some(activityId), appId)
      ensures unchanged(newActivity)
    {
      r := ProcessActivity(c, conversationId, Some(activityId), context, newActivity, appId, outcomes, freshId);
    }

    /** `onUpdateActivity`: update the activity through the turn context and answer with the
        update's response, or else with the updated activity's id.  `update` is what
        `updateActivity` returns or throws; it is called after `id` and `callerId` are set. */
    method OnUpdateActivity(c: Collaborators, activityId: string, context: TurnContext,
                            newActivity: Activity, appId: string, update: Outcome<Option<ResourceResponse>>)
      returns (r: Result<ResourceResponse, Error>)
      modifies this, context.activity
      ensures ContinueConversation(c).Failure? ==>
        r == Failure(ContinueConversation(c).error) && calls == old(calls) && unchanged(context.activity)
      ensures ContinueConversation(c).Success? ==>
        r == (match update
              case Threw(e) => Failure(e)
              case Returned(updated) => Success(ResponseOr(updated, activityId))) &&
        calls == old(calls) + [UpdateActivity(newActivity)] &&
        context.activity.id == Some(activityId) &&
        context.activity.callerId == Some(BotToBotPrefix + appId) &&
        AddressKept(context.activity) && ContentKept(context.activity)
    {
      var ref := ContinueConversation(c);
      if ref.Failure? {
        return Failure(ref.error);
      }
      context.activity.id := Some(activityId);
      context.activity.callerId := Some(BotToBotPrefix + appId);
      calls := calls + [UpdateActivity(newActivity)];
      match update
      case Threw(e) => r := Failure(e);
      case Returned(updated) => r := Success(ResponseOr(updated, activityId));
    }

    /** `onDeleteActivity`: delete the activity through the turn context.  `deleteError` is what
        `deleteActivity` throws, if it throws. */
    method OnDeleteActivity(c: Collaborators, activityId: string, deleteError: Option<Error>)
      returns (r: Result<(), Error>)
      modifies this
      ensures ContinueConversation(c).Failure? ==> r == Failure(ContinueConversation(c).error) && calls == old(calls)
      ensures ContinueConversation(c).Success? ==>
        calls == old(calls) + [DeleteActivity(activityId)] &&
        r == if deleteError.Some? then Failure(deleteError.value) else Success(())
    {
      var ref := ContinueConversation(c);
      if ref.Failure? {
        return Failure(ref.error);
      }
      calls := calls + [DeleteActivity(activityId)];
      r := if deleteError.Some? then Failure(deleteError.value) else Success(());
    }
  }
}
