/** The parts of the Bot Framework activity schema that the skill pipeline reads and writes.
    Activities, conversation accounts and channel accounts are objects that the pipeline updates
    in place, so they are classes; a conversation reference is a plain record.  Payloads the
    schema types as `any`, entities and timestamps are opaque. */
module Schema {
  import opened Wrappers

  /** A value the schema leaves untyped: an activity's `value` or `channelData`, a conversation's
      `properties`, a response body. */
  type Json(==)
  type Entity(==)
  /** A `Date`. */
  type Timestamp(==)

  /** `ActivityTypes.EndOfConversation` and `ActivityTypes.Event`. */
  const EndOfConversationType := "endOfConversation"
  const EventType := "event"
  /** `RoleTypes.Skill`. */
  const SkillRole := "skill"

  /** A copy of a conversation account's fields, as held by a conversation reference. */
  datatype ConversationAccountData = ConversationAccountData(
    id: string,
    name: Option<string>,
    conversationType: Option<string>,
    aadObjectId: Option<string>,
    isGroup: Option<bool>,
    properties: Option<Json>,
    role: Option<string>,
    tenantId: Option<string>)

  /** A channel account (a user or a bot in a conversation). */
  class ChannelAccount {
    var id: Option<string>
    var name: Option<string>
    var aadObjectId: Option<string>
    var role: Option<string>

    /** The empty object literal `{}`. */
    constructor Empty()
      ensures id.None? && name.None? && aadObjectId.None? && role.None?
    {
      id := None;
      name := None;
      aadObjectId := None;
      role := None;
    }
  }

  /** A reference to a point in a conversation (`ConversationReference`). */
  datatype ConversationReference = ConversationReference(
    activityId: Option<string>,
    bot: Option<ChannelAccount>,
    conversation: Option<ConversationAccountData>,
    channelId: Option<string>,
    serviceUrl: Option<string>)

  /** A conversation account. */
  class ConversationAccount {
    var id: string
    var name: Option<string>
    var conversationType: Option<string>
    var aadObjectId: Option<string>
    var isGroup: Option<bool>
    var properties: Option<Json>
    var role: Option<string>
    var tenantId: Option<string>

    constructor (data: ConversationAccountData)
      ensures Data() == data
    {
      id := data.id;
      name := data.name;
      conversationType := data.conversationType;
      aadObjectId := data.aadObjectId;
      isGroup := data.isGroup;
      properties := data.properties;
      role := data.role;
      tenantId := data.tenantId;
    }

    /** The current field values. */
    function Data(): ConversationAccountData
      reads this
    {
      ConversationAccountData(id, name, conversationType, aadObjectId, isGroup, properties, role, tenantId)
    }
  }

  /** An activity.  `activityType` is the schema's `type` field. */
  class Activity {
    var activityType: Option<string>
    var id: Option<string>
    var name: Option<string>
    var text: Option<string>
    var code: Option<string>
    var replyToId: Option<string>
    var value: Option<Json>
    var entities: Option<seq<Entity>>
    var locale: Option<string>
    var localTimestamp: Option<Timestamp>
    var timestamp: Option<Timestamp>
    var channelData: Option<Json>
    var relatesTo: Option<ConversationReference>
    var callerId: Option<string>
    var serviceUrl: Option<string>
    var channelId: Option<string>
    var conversation: ConversationAccount
    /** `undefined` when the activity names no recipient. */
    var recipient: ChannelAccount?

    /** An activity in `conversation` addressed to `recipient`, with every optional field unset. */
    constructor (conversation: ConversationAccount, recipient: ChannelAccount?)
      ensures this.conversation == conversation && this.recipient == recipient
      ensures activityType.None? && id.None? && serviceUrl.None? && relatesTo.None?
    {
      activityType := None;
      id := None;
      name := None;
      text := None;
      code := None;
      replyToId := None;
      value := None;
      entities := None;
      locale := None;
      localTimestamp := None;
      timestamp := None;
      channelData := None;
      relatesTo := None;
      callerId := None;
      serviceUrl := None;
      channelId := None;
      this.conversation := conversation;
      this.recipient := recipient;
    }
  }

  /** `ResourceResponse`: the id of a sent or updated activity. */
  datatype ResourceResponse = ResourceResponse(id: string)

  /** An error with its `message`. */
  datatype Error = Error(message: string)
}
