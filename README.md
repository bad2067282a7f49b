# Bot Framework SDK core, modelled in Dafny

This project models four small parts of the Bot Framework SDK for JavaScript and proves
properties of them.

- **The expression language's function registry.** The built-in `ExpressionType` name
  catalogue and the catalogues of the datetime, timex, typechecking, uri, xml, conversion and
  regex extension packs are enumerations with a `Name` each. The built-in members are grouped by the
  headings the class itself uses (math, comparisons, logic, string, memory, collection, misc,
  object, string-or-value). Every pack's initializer is a
  method making its `add` calls, in order, on a `FunctionTable` object. The proofs show that
  all names are distinct, within a catalogue and across catalogues. They show that each
  initializer binds exactly its own names, that running it twice changes nothing more, and
  that initializers and their `add` calls may run in any order. `BoolFunc` is the `bool` entry.
- **Language generation.** The `Template` record with its constructor defaults and its display
  form `[name(p1, p2)]"body"`. A decoder is proved to read that form back. `TemplateException`
  carries the diagnostics it was thrown with.
- **The skill pipeline.** `SkillHandlerImpl` finds the conversation a skill's activity belongs
  to, routes the activity, copies fields onto the turn's activity in place, and picks a
  fallback response. `BotFrameworkClientImpl.postActivity` readdresses an activity in place for
  the request to a skill and then restores it.
- **`formatHost`** of the test utilities, which builds `protocol//host`.

Classes model objects the source updates in place: the function table, `Template`,
`TemplateException`, the activity and its accounts, the turn context and the handler. Names,
routing decisions and string forms are functions. Opaque collaborators are parameters: the
conversation-id factory, the adapter, the bot logic, credentials and the HTTP exchange. What
they return or throw, inside the callback of a continued conversation too, arrives as a value,
and the calls the handler makes on them are recorded in order.

## Model

| member | source | states |
|---|---|---|
| FunctionNames.ParseCoreKey | libraries/adaptive-expressions/src/expressionType.ts:14-117 | Reading back the registry key of any built-in `ExpressionType` member gives that member: the 87 built-in names are pairwise distinct. |
| FunctionNames.ParseMathKey | libraries/adaptive-expressions/src/expressionType.ts:14-31 | Reading back the registry key of each of the arithmetic names, `+` to `rand` gives that member. |
| FunctionNames.ParseComparisonKey | libraries/adaptive-expressions/src/expressionType.ts:34-42 | Reading back the registry key of each of the comparison names, `<` to `empty` gives that member. |
| FunctionNames.ParseLogicKey | libraries/adaptive-expressions/src/expressionType.ts:45-47 | Reading back the registry key of each of the three logic names (`And`, `Or`, `Not`) gives that member. |
| FunctionNames.ParseStringKey | libraries/adaptive-expressions/src/expressionType.ts:50-69 | Reading back the registry key of each of the string names, `concat` to `titleCase` gives that member. |
| FunctionNames.ParseMemoryKey | libraries/adaptive-expressions/src/expressionType.ts:72-75 | Reading back the registry key of each of the memory names (`Accessor`, `Element`, `setPathToValue`, `coalesce`) gives that member. |
| FunctionNames.ParseCollectionKey | libraries/adaptive-expressions/src/expressionType.ts:78-97 | Reading back the registry key of each of the collection names, `createArray` to `all` gives that member. |
| FunctionNames.ParseMiscKey | libraries/adaptive-expressions/src/expressionType.ts:100-102 | Reading back the registry key of each of the miscellaneous names (`Constant`, `Lambda`, `if`) gives that member. |
| FunctionNames.ParseObjectKey | libraries/adaptive-expressions/src/expressionType.ts:105-111 | Reading back the registry key of each of the object names, `json` to `merge` gives that member. |
| FunctionNames.ParseValueKey | libraries/adaptive-expressions/src/expressionType.ts:114-117 | Reading back the registry key of each of the string-or-value names gives that member. |
| FunctionNames.ParseDatetimeKeys1 | libraries/adaptive-expressions/src/extendedFunctions/datetime/types.ts:13-22 | Reading back the key of each datetime name from `addDays` to `year` gives that name. |
| FunctionNames.ParseDatetimeKeys2 | libraries/adaptive-expressions/src/extendedFunctions/datetime/types.ts:23-32 | The same for `utcNow` to `convertFromUTC`. |
| FunctionNames.ParseDatetimeKeys3 | libraries/adaptive-expressions/src/extendedFunctions/datetime/types.ts:33-42 | The same for `convertToUTC` to `dateTimeDiff`. |
| FunctionNames.ParseDatetimeKey | libraries/adaptive-expressions/src/extendedFunctions/datetime/types.ts:13-42 | The same for the 30 datetime names: pairwise distinct. |
| FunctionNames.ParseTimexKey | libraries/adaptive-expressions/src/extendedFunctions/timex/types.ts:13-24 | The same for the 12 timex names (including `resolve`): pairwise distinct. |
| FunctionNames.ParseTypecheckingKey | libraries/adaptive-expressions/src/extendedFunctions/typechecking/types.ts:13-19 | The same for the 7 typechecking names: pairwise distinct. |
| FunctionNames.ParseUriKey | libraries/adaptive-expressions/src/extendedFunctions/uri/types.ts:13-18 | The same for the 6 uri names: pairwise distinct. |
| FunctionNames.ParseXmlKey | libraries/adaptive-expressions/src/extendedFunctions/xml/types.ts:13-14 | The same for `xml` and `xPath`: they differ. |
| FunctionNames.ParseConversionKey | libraries/adaptive-expressions/src/extendedFunctions/conversion/types.ts:13-27 | The same for the 15 conversion names: pairwise distinct. |
| FunctionNames.ParseRegexKey | libraries/adaptive-expressions/src/extendedFunctions/regex/index.ts:6 | The regex pack's one name reads back to itself. |
| FunctionNames.ParseKey | libraries/adaptive-expressions/src/expressionType.ts:14-117 | Reading back the key of any entry of any catalogue gives that entry. |
| FunctionNames.KeyInjective | libraries/adaptive-expressions/src/expressionType.ts:14-117 | Two catalogue entries have the same key if and only if they are the same entry, within a catalogue and across catalogues. |
| CatalogueFacts.CataloguesDisjoint | libraries/adaptive-expressions/src/extendedFunctions/datetime/types.ts:13-42 | Entries of two different catalogues (built-in, datetime, timex, typechecking, uri, xml, conversion, regex) never share a key. |
| CatalogueFacts.SeparationExamples | libraries/adaptive-expressions/src/extendedFunctions/conversion/types.ts:24-27 | `date`, `year`, `month`, `jsonStringify`, `xml` and `xPath` are not built-in names; no uri name is `uriComponent` or `uriComponentToString`; `date` differs from `isDate`, and `isDate` from `isDateTime`. |
| CatalogueFacts.ArithmeticNames | libraries/adaptive-expressions/src/expressionType.ts:14-21 | Add, Subtract, Multiply, Divide, Power and Mod are `+ - * / ^ %`. |
| CatalogueFacts.ComparisonNames | libraries/adaptive-expressions/src/expressionType.ts:34-39 | The comparison operators are `< <= == != > >=`. |
| CatalogueFacts.LogicNames | libraries/adaptive-expressions/src/expressionType.ts:45-47 | And is `&&`, Not is `!`, and Or is the doubled vertical bar. |
| CatalogueFacts.ConcatIsNotAdd | libraries/adaptive-expressions/src/expressionType.ts:50 | Concat is `concat`, not the `+` of Add. |
| CatalogueFacts.NodeKindsAreNotCallable | libraries/adaptive-expressions/src/expressionType.ts:72-109 | The node kinds Accessor, Element, Constant and Lambda have names different from getProperty, setPathToValue and coalesce. |
| Registry.FunctionTable.constructor | libraries/adaptive-expressions/src/extendedFunctions/datetime/index.ts:6 | A function table starts with the given entries. |
| Registry.FunctionTable.Add | libraries/adaptive-expressions/src/extendedFunctions/datetime/index.ts:6 | `add(name, evaluator)` binds `name` to `evaluator`, replacing any earlier binding, and changes nothing else. |
| Registry.LastFor | libraries/adaptive-expressions/src/extendedFunctions/timex/index.ts:17-28 | A sequence of `add` calls has a last registration for a name exactly when it registers the name, and that registration is one of the calls. |
| Registry.ApplyGet | libraries/adaptive-expressions/src/extendedFunctions/timex/index.ts:17-28 | After a sequence of `add` calls, each name is bound to its last registration, or keeps its old entry (or absence) when not registered. |
| Registry.ApplyFrame | libraries/adaptive-expressions/src/extendedFunctions/timex/index.ts:16-29 | A name the calls do not register keeps its entry or its absence. |
| Registry.ApplyBinds | libraries/adaptive-expressions/src/extendedFunctions/timex/index.ts:17-28 | With distinct names, every registration is in force afterwards. |
| Registry.ApplyKeys | libraries/adaptive-expressions/src/extendedFunctions/timex/index.ts:17-28 | The names afterwards are the old names plus the registered ones. |
| Registry.ApplyGrowth | libraries/adaptive-expressions/src/extendedFunctions/timex/index.ts:17-28 | The calls add at most as many names as there are calls. |
| Registry.ApplyIdempotent | libraries/adaptive-expressions/src/extendedFunctions/timex/index.ts:17-28 | Making the same calls twice gives the table of making them once. |
| Registry.ApplyCommutes | libraries/adaptive-expressions/src/extendedFunctions/typechecking/index.ts:12-18 | Call sequences over disjoint names may run in either order. |
| Registry.ApplyReorder | libraries/adaptive-expressions/src/extendedFunctions/uri/index.ts:11-16 | With distinct names, any permutation of the calls gives the same table. |
| Registry.DistinctNamesCardinality | libraries/adaptive-expressions/src/extendedFunctions/timex/index.ts:17-28 | The calls use distinct names exactly when there are as many names as calls. |
| Registry.TablesEqual | libraries/adaptive-expressions/src/extendedFunctions/timex/index.ts:17-28 | Two tables that give the same result for every name are the same table. |
| Registry.NamesCardinality | libraries/adaptive-expressions/src/extendedFunctions/timex/index.ts:17-28 | A list of `add` calls names at most as many names as it has calls. |
| Registry.LastForDistinct | libraries/adaptive-expressions/src/extendedFunctions/timex/index.ts:17-28 | With distinct names, the last registration under a name is `e` exactly when the list registers that name with `e`. |
| Registry.DistinctNamesCons | libraries/adaptive-expressions/src/extendedFunctions/timex/index.ts:17-28 | A list of calls has distinct names exactly when its tail does and its first name does not appear in the tail. |
| Registry.PermutationKeepsDistinct | libraries/adaptive-expressions/src/extendedFunctions/uri/index.ts:11-16 | Reordering calls that have distinct names keeps the names distinct. |
| DatetimeFunctions.RegistrationsFollowEntries | libraries/adaptive-expressions/src/extendedFunctions/datetime/index.ts:6 | The one `add` call registers the name of `AddDays` with the AddDays evaluator. |
| DatetimeFunctions.RegistrationsDistinct | libraries/adaptive-expressions/src/extendedFunctions/datetime/index.ts:6 | The call list has distinct names. |
| TimexFunctions.RegistrationsFollowEntries | libraries/adaptive-expressions/src/extendedFunctions/timex/index.ts:17-28 | The i-th of the 12 `add` calls registers the i-th timex entry's name with that entry's evaluator class. |
| TypecheckingFunctions.RegistrationsFollowEntries | libraries/adaptive-expressions/src/extendedFunctions/typechecking/index.ts:12-18 | The i-th of the 7 `add` calls registers the i-th typechecking entry's name with that entry's evaluator class. |
| UriFunctions.RegistrationsFollowEntries | libraries/adaptive-expressions/src/extendedFunctions/uri/index.ts:11-16 | The i-th of the 6 `add` calls registers the i-th uri entry's name with that entry's evaluator class. |
| XmlFunctions.RegistrationsFollowEntries | libraries/adaptive-expressions/src/extendedFunctions/xml/index.ts:7-8 | The two `add` calls register `xml` with XML and `xPath` with XPath, in that order. |
| RegexFunctions.RegistrationsFollowEntries | libraries/adaptive-expressions/src/extendedFunctions/regex/index.ts:6 | The one `add` call registers the IsMatch name with the IsMatch evaluator. |
| RegexFunctions.RegistrationsDistinct | libraries/adaptive-expressions/src/extendedFunctions/regex/index.ts:6 | The call list has distinct names. |
| DatetimeFunctions.Initialize | libraries/adaptive-expressions/src/extendedFunctions/datetime/index.ts:5-7 | The initializer leaves the table as the old one with its one `add` call applied. |
| DatetimeFunctions.InitializeBinds | libraries/adaptive-expressions/src/extendedFunctions/datetime/index.ts:6 | Afterwards `addDays` is bound to the AddDays evaluator. |
| DatetimeFunctions.InitializeFrame | libraries/adaptive-expressions/src/extendedFunctions/datetime/index.ts:5-7 | Every other name keeps its entry or its absence. |
| DatetimeFunctions.InitializeSkipsOtherNames | libraries/adaptive-expressions/src/extendedFunctions/datetime/index.ts:6 | The other 29 datetime names (`addHours`, `utcNow`, ...) are not registered by this initializer. |
| TimexFunctions.Initialize | libraries/adaptive-expressions/src/extendedFunctions/timex/index.ts:16-29 | The initializer leaves the table as the old one with its 12 `add` calls applied in order. |
| TimexFunctions.RegistrationsDistinct | libraries/adaptive-expressions/src/extendedFunctions/timex/index.ts:17-28 | The 12 calls use distinct names. |
| TimexFunctions.InitializeBinds | libraries/adaptive-expressions/src/extendedFunctions/timex/index.ts:17-28 | Afterwards each timex name is bound to its evaluator class, e.g. `resolve` to TimexResolve. |
| TimexFunctions.InitializeFrame | libraries/adaptive-expressions/src/extendedFunctions/timex/index.ts:16-29 | Every name outside the timex catalogue keeps its entry or its absence. |
| TypecheckingFunctions.Initialize | libraries/adaptive-expressions/src/extendedFunctions/typechecking/index.ts:11-19 | The table afterwards is the old one with the 7 `add` calls applied in order. |
| TypecheckingFunctions.RegistrationsDistinct | libraries/adaptive-expressions/src/extendedFunctions/typechecking/index.ts:12-18 | The 7 calls use distinct names. |
| TypecheckingFunctions.InitializeBinds | libraries/adaptive-expressions/src/extendedFunctions/typechecking/index.ts:12-18 | Afterwards each of the 7 names is bound to its evaluator class. |
| TypecheckingFunctions.InitializeFrame | libraries/adaptive-expressions/src/extendedFunctions/typechecking/index.ts:11-19 | Every other name keeps its entry or its absence. |
| UriFunctions.Initialize | libraries/adaptive-expressions/src/extendedFunctions/uri/index.ts:10-17 | The table afterwards is the old one with the 6 `add` calls applied in order. |
| UriFunctions.RegistrationsDistinct | libraries/adaptive-expressions/src/extendedFunctions/uri/index.ts:11-16 | The 6 calls use distinct names. |
| UriFunctions.InitializeBinds | libraries/adaptive-expressions/src/extendedFunctions/uri/index.ts:11-16 | Afterwards each of the 6 uri names is bound to its evaluator class. |
| UriFunctions.InitializeFrame | libraries/adaptive-expressions/src/extendedFunctions/uri/index.ts:10-17 | Every other name keeps its entry or its absence. |
| XmlFunctions.Initialize | libraries/adaptive-expressions/src/extendedFunctions/xml/index.ts:6-9 | The table afterwards is the old one with the 2 `add` calls applied in order. |
| XmlFunctions.RegistrationsDistinct | libraries/adaptive-expressions/src/extendedFunctions/xml/index.ts:7-8 | The 2 calls use different names. |
| XmlFunctions.InitializeBinds | libraries/adaptive-expressions/src/extendedFunctions/xml/index.ts:7-8 | Afterwards `xml` is bound to XML and `xPath` to XPath. |
| XmlFunctions.InitializeFrame | libraries/adaptive-expressions/src/extendedFunctions/xml/index.ts:6-9 | Every other name keeps its entry or its absence. |
| RegexFunctions.Initialize | libraries/adaptive-expressions/src/extendedFunctions/regex/index.ts:5-7 | The table afterwards is the old one with its one `add` call applied. |
| RegexFunctions.InitializeBinds | libraries/adaptive-expressions/src/extendedFunctions/regex/index.ts:6 | Afterwards the IsMatch name is bound to the IsMatch evaluator. |
| RegexFunctions.InitializeFrame | libraries/adaptive-expressions/src/extendedFunctions/regex/index.ts:5-7 | Every other name keeps its entry or its absence. |
| ExtensionPacks.RegisteredKeys | libraries/adaptive-expressions/src/extendedFunctions/timex/index.ts:17-28 | Every name a pack registers is the key of an entry of that pack's own catalogue. |
| ExtensionPacks.DatetimeKeys | libraries/adaptive-expressions/src/extendedFunctions/datetime/index.ts:5-6 | Every name the datetime initializer registers is the key of an entry of the datetime catalogue. |
| ExtensionPacks.TimexKeys | libraries/adaptive-expressions/src/extendedFunctions/timex/index.ts:16-29 | Every name the timex initializer registers is the key of an entry of the timex catalogue. |
| ExtensionPacks.TypecheckingKeys | libraries/adaptive-expressions/src/extendedFunctions/typechecking/index.ts:11-19 | Every name the typechecking initializer registers is the key of an entry of the typechecking catalogue. |
| ExtensionPacks.UriKeys | libraries/adaptive-expressions/src/extendedFunctions/uri/index.ts:10-17 | Every name the uri initializer registers is the key of an entry of the uri catalogue. |
| ExtensionPacks.XmlKeys | libraries/adaptive-expressions/src/extendedFunctions/xml/index.ts:6-9 | Every name the xml initializer registers is the key of an entry of the xml catalogue. |
| ExtensionPacks.RegexKeys | libraries/adaptive-expressions/src/extendedFunctions/regex/index.ts:5-7 | Every name the regex initializer registers is the key of an entry of the regex catalogue. |
| ExtensionPacks.NamesDisjoint | libraries/adaptive-expressions/src/extendedFunctions/typechecking/index.ts:12-18 | Two different packs never register the same name. |
| ExtensionPacks.RegistrationsDistinct | libraries/adaptive-expressions/src/extendedFunctions/uri/index.ts:11-16 | Within each pack no name is registered twice, and the packs make 1, 12, 7, 6, 2 and 1 calls. |
| ExtensionPacks.InitializersCommute | libraries/adaptive-expressions/src/extendedFunctions/typechecking/index.ts:11-19 | Running any two pack initializers in either order gives the same table. |
| ExtensionPacks.InitializeTwice | libraries/adaptive-expressions/src/extendedFunctions/xml/index.ts:7-8 | Running an initializer a second time leaves the table as the first run left it. |
| ExtensionPacks.InitializeInAnyOrder | libraries/adaptive-expressions/src/extendedFunctions/xml/index.ts:7-8 | Any reordering of a pack's `add` calls gives the same table. |
| ExtensionPacks.InitializeGrowth | libraries/adaptive-expressions/src/extendedFunctions/timex/index.ts:17-28 | An initializer keeps every existing name and adds at most as many names as it makes calls. |
| BoolFunc.Name | libraries/adaptive-expressions/src/extendedFunctions/conversion/boolFunc.ts:22 | The evaluator is named after the conversion catalogue's Bool, which is `bool`. |
| BoolFunc.Entry | libraries/adaptive-expressions/src/extendedFunctions/conversion/boolFunc.ts:22 | A BoolFunc instance is the registry entry `bool`. |
| BoolFunc.Evaluate | libraries/adaptive-expressions/src/extendedFunctions/conversion/boolFunc.ts:22-30 | A call is accepted exactly when it has one argument, and its value is the truthiness of that argument. |
| BoolFunc.FirstArgumentOnly | libraries/adaptive-expressions/src/extendedFunctions/conversion/boolFunc.ts:28-30 | `func` depends only on the first argument. |
| LgTemplate.Template.constructor | libraries/botbuilder-lg/src/template.ts:54-59 | A missing or empty name and a missing body become `''`, missing parameters become `[]`, and the source range is stored as given. |
| LgTemplate.Template.ToString | libraries/botbuilder-lg/src/template.ts:66-68 | The display form of the template; for a delimitable name and parameters it decodes back to the name, parameters and body. |
| LgTemplate.Render | libraries/botbuilder-lg/src/template.ts:67 | With no parameters the form is `[name()]"body"`, with one no separator appears, the body sits verbatim before the closing quote, and a delimitable template decodes back. |
| LgTemplate.DecodeRender | libraries/botbuilder-lg/src/template.ts:67 | Decoding the display form of a delimitable template gives its name, parameters and body. |
| LgTemplate.SplitJoin | libraries/botbuilder-lg/src/template.ts:67 | Splitting the `, `-joined parameter list gives the parameters back when each is non-empty and has no comma or closing parenthesis. |
| LgTemplate.SplitAfterParameter | libraries/botbuilder-lg/src/template.ts:67 | A valid parameter followed by `, ` splits off as the first piece of the parameter list. |
| LgTemplate.DecodeDisplayForm | libraries/botbuilder-lg/src/template.ts:67 | A display form whose name has no parentheses and whose parameter text has no `)` decodes to that name, the pieces of that text, and the body. |
| LgTemplate.DecodeFields | libraries/botbuilder-lg/src/template.ts:67 | A string with `[` first, `"` last, its first `(` before its first `)` and `]"` after it decodes to the text between those marks. |
| LgTemplate.DisplayFormIndices | libraries/botbuilder-lg/src/template.ts:67 | In a display form the first `(` follows the name and the first `)` follows the parameter text. |
| LgTemplate.DisplayFormSlices | libraries/botbuilder-lg/src/template.ts:67 | A display form has length six more than its parts, starts with `[`, ends with `"`, and holds the name, the parameter text and the body between its punctuation. |
| LgTemplate.EmptyParameterIsInvisible | libraries/botbuilder-lg/src/template.ts:67 | No parameters and one empty parameter have the same display form. |
| LgTemplateException.TemplateException.constructor | libraries/botbuilder-lg/src/templateException.ts:22-26 | The message is `m` and the diagnostics are the given list. |
| LgTemplateException.TemplateException.GetDiagnostic | libraries/botbuilder-lg/src/templateException.ts:33-35 | `getDiagnostic` returns the diagnostics and changes nothing. |
| LgTemplateException.ThrowAndInspect | libraries/botbuilder-lg/src/templateException.ts:14-35 | An exception built from `m` and a list reports that message and returns that list on every call. |
| SkillHandler.GetSkillConversationReference | libraries/botbuilder/src/skills/skillHandlerImpl.ts:77-103 | The factory's reference, or after `Not Implemented` the deprecated reference with the OAuth scope; other errors propagate; a missing reference fails with `skillConversationReference not found`, one without a conversation reference with `conversationReference not found.`; a success always has a conversation reference. |
| SkillHandler.LegacyLookupOnlyAfterNotImplemented | libraries/botbuilder/src/skills/skillHandlerImpl.ts:80-94 | The deprecated lookup and the OAuth scope affect the result only when the factory reports `Not Implemented`. |
| SkillHandler.ContinueConversation | libraries/botbuilder/src/skills/skillHandlerImpl.ts:161-192 | The callback runs exactly when the lookup succeeds and the adapter does not throw; otherwise the lookup's or the adapter's error is the result. |
| SkillHandler.RouteOf | libraries/botbuilder/src/skills/skillHandlerImpl.ts:133-151 | End-of-conversation and event activities go to the bot logic, every other type to `sendActivity`. |
| SkillHandler.DeleteOnlyOnEndOfConversation | libraries/botbuilder/src/skills/skillHandlerImpl.ts:133-151 | The conversation reference is deleted only on the end-of-conversation route and only for the conversation being processed; the logic runs exactly when the activity is not sent. |
| SkillHandler.TurnCallsFollowRoute | libraries/botbuilder/src/skills/skillHandlerImpl.ts:133-151 | The calls the callback makes are a prefix of its route's calls, all of them when it succeeds and one fewer exactly when deleting the reference fails; it succeeds exactly when none of its calls throws. |
| SkillHandler.AnswerFallsBack | libraries/botbuilder/src/skills/skillHandlerImpl.ts:154-158 | `processActivity` answers exactly when its callback succeeds; an end of conversation or an event gets a fresh id, a sent activity the response `sendActivity` gave, or a fresh id when it gave none. |
| SkillHandler.ResponseOr | libraries/botbuilder/src/skills/skillHandlerImpl.ts:154-158 | The response is the one the adapter gave, or else a response with the fallback id: a fresh one after `sendActivity`, the activity id after `updateActivity`. |
| SkillHandler.SkillHandlerImpl.ApplyEoCToTurnContextActivity | libraries/botbuilder/src/skills/skillHandlerImpl.ts:195-210 | The ten end-of-conversation fields are copied; `id`, `name`, `relatesTo`, `callerId` and the addressing fields stay; the source activity is unchanged. |
| SkillHandler.SkillHandlerImpl.ApplyEventToTurnContextActivity | libraries/botbuilder/src/skills/skillHandlerImpl.ts:213-226 | The ten event fields are copied, `value` ending equal to the event's; `id`, `text`, `code`, `callerId` and the addressing fields stay. |
| SkillHandler.SkillHandlerImpl.ProcessTurn | libraries/botbuilder/src/skills/skillHandlerImpl.ts:113-152 | The callback sets `id` and `callerId`, then on each route makes that route's calls up to the first one that throws, ends with that error or with `sendActivity`'s result, and leaves the activity transformed when the route's transform ran (not when deleting the reference failed) and otherwise with its content unchanged. |
| SkillHandler.SkillHandlerImpl.ProcessActivity | libraries/botbuilder/src/skills/skillHandlerImpl.ts:105-159 | A failed lookup or adapter call ends with that error and no change. Otherwise the callback's calls, activity fields and error are as `ProcessTurn` states; a failed callback gives its error and no response, and a successful one the sent response or one with a fresh id. |
| SkillHandler.SkillHandlerImpl.OnSendToConversation | libraries/botbuilder/src/skills/skillHandlerImpl.ts:32-38 | `processActivity` with no activity id: the same response, error, calls and activity fields, with `id` left unset. |
| SkillHandler.SkillHandlerImpl.OnReplyToActivity | libraries/botbuilder/src/skills/skillHandlerImpl.ts:40-47 | `processActivity` as a reply: the same response, error, calls and activity fields, with `id` set to the replied-to id. |
| SkillHandler.SkillHandlerImpl.OnUpdateActivity | libraries/botbuilder/src/skills/skillHandlerImpl.ts:49-69 | A failed lookup or adapter call ends with that error and no change. Otherwise `id` and `callerId` are set, every other field is kept, `updateActivity` is called, and the answer is its error, its response, or `{ id: activityId }`. |
| SkillHandler.SkillHandlerImpl.OnDeleteActivity | libraries/botbuilder/src/skills/skillHandlerImpl.ts:71-75 | A failed lookup or adapter call ends with that error and no call. Otherwise `deleteActivity` is called and its error, if any, is the result. |
| BotFrameworkClient.RelatesTo | libraries/botframework-connector/src/auth/botFrameworkClientImpl.ts:41-56 | The reference back carries the activity's service URL, id, channel and conversation fields, and no bot. |
| BotFrameworkClient.BotFrameworkClientImpl.PostActivity | libraries/botframework-connector/src/auth/botFrameworkClientImpl.ts:18-90 | The request carries the new conversation id, the new service URL, a reference back built from the activity as it was on entry, and the skill role; on every exit the activity and its conversation are as on entry, but a recipient that existed keeps role `skill`; a credentials error changes nothing. |
| BotFrameworkClient.BotFrameworkClientImpl.PostActivityRestoringRole | libraries/botframework-connector/src/auth/botFrameworkClientImpl.ts:83-89 | The same request and result, and the recipient is left as on entry too. |
| BotFrameworkClient.RecipientRoleSurvivesPost | libraries/botframework-connector/src/auth/botFrameworkClientImpl.ts:65 | A recipient with role `user` comes back from `postActivity` with role `skill`. |
| BotFrameworkClient.RecipientRoleRestoredByCorrectedPost | libraries/botframework-connector/src/auth/botFrameworkClientImpl.ts:88 | With the role restored, the same recipient comes back with role `user`. |
| FormatHost.FormatHost | testing/botbuilder-test-utils/src/formatHost.ts:13 | The result is the printed protocol, then `//`, then the printed host, and has their lengths plus two. |
| FormatHost.SplitFormatHost | testing/botbuilder-test-utils/src/formatHost.ts:13 | For a protocol without `/`, splitting the result at its first `//` gives back the protocol and host. |
| FormatHost.FormatHostDetermines | testing/botbuilder-test-utils/src/formatHost.ts:13 | For protocols without `/`, equal results mean equal protocols and hosts. |
| FormatHost.OnlyProtocolAndHost | testing/botbuilder-test-utils/src/formatHost.ts:13 | URLs with the same protocol and host give the same result; path, query and the other fields are ignored. |
| FormatHost.NullHostIsPrinted | testing/botbuilder-test-utils/src/formatHost.ts:13 | A missing host prints as `null`, the same as a host named `null`. |

## Left out

- The expression parser, evaluator, value model and the function table's own implementation are not part of this model. `add` is taken to overwrite the entry under the given name, so the last registration wins.
- What each evaluator class computes (date arithmetic, timex resolution, regular expressions, XPath, URI parsing) is not modelled. Each evaluator is an opaque tag.
- extendedFunctions/regex/types.ts is not part of this model. The name of its `IsMatch` member is taken to be `isMatch`.
- The conversion pack's initializer is not part of this model. Of that pack only the name catalogue and the `bool` entry are modelled.
- BoolFunc.Evaluate: `isLogicTrue` is a parameter, and `validateUnary` is an arity-one check applied before `func`. In the library the check runs when the expression is built, in `ComparisonEvaluator`, which is not part of this model.
- `Template`'s parse tree and extended `properties` are not modelled. `SourceRange` and `Diagnostic` are opaque types.
- LgTemplate.Template.ToString: the decoding round trip is proved only for names without parentheses and for parameters that are non-empty and contain no comma or closing parenthesis. Other templates can share a display form (see `EmptyParameterIsInvisible`).
- The JavaScript `Error` machinery of `TemplateException` (prototype, stack) is not modelled.
- SkillHandler.SkillHandlerImpl.ProcessTurn: the bot logic is opaque and is taken not to change the turn context's activity. The postcondition describes the activity as the logic receives it.
- SkillHandler.SkillHandlerImpl.ProcessActivity: an error thrown inside the callback whose message is `Not Implemented` makes `continueConversation` take the legacy path, which runs the callback a second time before rethrowing. The model ends with the error after the first run.
- SkillHandler.SkillHandlerImpl.OnUpdateActivity: the same second run of the callback after a `Not Implemented` error from `updateActivity` is not modelled.
- SkillHandler.SkillHandlerImpl.OnDeleteActivity: the same second run of the callback after a `Not Implemented` error from `deleteActivity` is not modelled.
- SkillHandler.ContinueConversation: an adapter error is modelled as thrown before the callback runs. The legacy `continueConversation` path runs the callback and then rethrows the original error anyway; its effects are not modelled, only the error.
- `TurnContext.applyConversationReference`, the app id read from the claims, and the `uuid` used for a fresh response id are parameters. The handler's `turnState` entries (the skill conversation reference and, for `BotFrameworkAdapter`, the connector client) are not modelled.
- The values of `ActivityTypes.EndOfConversation` (`endOfConversation`), `ActivityTypes.Event` (`event`), `RoleTypes.Skill` (`skill`) and `CallerIdConstants.BotToBotPrefix` (`urn:botframework:aadappid:`) come from packages that are not part of this model.
- `postActivity`: creating credentials, signing, serialising the request and fetching the reply are one opaque outcome. Of the serialised body only the fields the method writes are modelled (`Request`). Headers and the user agent are left out.
- Activities, conversation accounts and channel accounts have only the fields the modelled code reads or writes. `activity.conversation` is taken to be present, as the schema requires.
- `formatHost`'s argument is a parsed `Url` record. URL parsing itself is not modelled.
- Asynchrony and interleaving of the awaited calls are not modelled. Each operation runs to completion.

## Findings

| source | as written | input that shows it | evidently intended | confidence | as-written member | corrected member |
|---|---|---|---|---|---|---|
| libraries/botframework-connector/src/auth/botFrameworkClientImpl.ts:65-88 | `postActivity` sets `role` to `skill` on the activity's recipient object, and in the `finally` block restores only the `recipient` reference | an activity whose recipient object exists and has role `user`: after the call the caller's recipient has role `skill` | the restore block puts back the activity's properties, so the caller gets its activity back as it was, including the recipient's role | medium; not executed | BotFrameworkClient.RecipientRoleSurvivesPost | BotFrameworkClient.BotFrameworkClientImpl.PostActivityRestoringRole |
