# Dialogflow → Microsoft Teams reply conversion

A Dafny model of the reply conversion at the heart of a bot that connects a
Dialogflow agent to Microsoft Teams. For each turn the bot asks Dialogflow for
response messages, keeps those meant for the `TEAMS` platform, and turns each
one into a Bot Framework activity: a `text` message into a text reply, an
`image` or a `card` into a hero-card attachment, `quickReplies` into suggested
actions, and a custom `payload` into the activity stored under its `teams`
field. The model also covers the three small predicates the turn handler uses
to read the incoming activity.

Files:

- `optional.dfy`: `Option`, the model of a JavaScript property that may be `undefined`.
- `dialogflow.dfy`: the response messages, tagged by kind, with card buttons,
  quick replies and the protobuf `Struct` a payload is made of.
- `teams.dfy`: the reply activities, hero cards, card images and Teams buttons.
- `activities.dfy`: the incoming activity and `isMessage`, `getMessageText`, `isMemberAdded`.
- `convert.dfy`: `convertToTeamsMessage`, one pure function per message kind.
- `properties.dfy`: what the conversion promises, kind by kind and per batch.

The response filter (`filterResponses`) and `structProtoToJson` are in files
that are not part of this model. Both are function parameters. The model
assumes only what a Dafny function parameter is: each is a total,
deterministic function that always returns and never throws. Nothing else is
assumed about what they return. The results of `CardFactory.heroCard`,
`CardFactory.images` and `MessageFactory.suggestedActions` are opaque datatype
constructors, one per call shape the bot uses. The string fields of a decoded
message (`postback`, `title`, `subtitle`, `imageUri`, the text alternatives)
are always strings, as protobuf defaults make them.

Behaviour of the code worth knowing:

- A response of an unrecognised kind yields the bare `{type: 'message'}`
  activity.
- A card whose button list is absent or empty yields the bare message with no
  attachment at all.
- The URL test is the literal, case-sensitive prefix `http`. So
  `httpQuestion` opens a URL and `HTTP://…` posts back.
- Conversion can fail. A `payload` message without a `teams` field makes the
  code read `structValue` of `undefined`. The resulting `TypeError` rejects
  the whole conversion, and the other replies are lost. The model returns
  `Failure(PropertyOfUndefined("structValue"))`.

## Model

The per-kind functions of `convert.dfy` (`TextReply`, `ImageReply`,
`CardReply`, `QuickRepliesReply`, `PayloadReply`) have no contract of their
own: the per-kind lemmas of `properties.dfy` below are their specification.
Likewise `AccessorsReadOneFieldEach` specifies `IsMessage`, `GetMessageText`
and `IsMemberAdded`.

| member | source | states |
|---|---|---|
| Convert.ClassifyButton | server.js:124-136 | a Teams button keeps the card button's text as its title and its postback as its value |
| Convert.ClassifyButtons | server.js:121-137 | one Teams button per card button, same count, and the i-th is the classification of the i-th |
| Convert.MapResponse | server.js:104-163 | one response yields one reply; it fails exactly when the response is a `payload` without a `teams` field, and the failure is the `TypeError` reading `structValue` of `undefined` |
| Convert.ConvertReplies | server.js:103-164 | the loop succeeds exactly when every response can be replied to; it then yields one reply per response, the i-th reply being the i-th response's; on failure, the error is that of the first response that throws |
| Convert.ConvertToTeamsMessage | server.js:98-167 | anything but an array yields no replies; an array yields exactly one reply per filtered response, in the filtered order, or fails exactly when one of them cannot be converted |
| Activities.AccessorsReadOneFieldEach | server.js:82-96 | `isMessage` depends only on the activity type being `message`, `getMessageText` only on the text, `isMemberAdded` only on whether `membersAdded` is an array |
| Properties.StartsWithIffPrefixConcat | server.js:124 | `startsWith` holds exactly when the string is the prefix followed by some rest |
| Properties.ButtonOpensUrlIffHttpPrefix | server.js:124-136 | a button's type is `openUrl` if and only if its postback begins with `http`, and `postBack` otherwise |
| Properties.ButtonClassificationExamples | server.js:124-136 | `https://example.com` opens a URL, `SKU123` posts back, `httpQuestion` opens a URL, `HTTP://EXAMPLE.COM` and `htt` post back |
| Properties.TextRepliesWithFirstAlternative | server.js:106-107 | a `text` message yields a message whose text is its first alternative, whatever the other alternatives are |
| Properties.TextWithoutAlternatives | server.js:107 | a `text` message with no alternatives yields a message whose text is undefined |
| Properties.ImageRepliesWithOneHeroCard | server.js:111-115 | an `image` message yields exactly one hero card with an empty title and a one-element image list holding its URI |
| Properties.CardWithoutButtonsIsBareMessage | server.js:119-145 | a `card` message always yields a reply, and that reply is the bare message with no attachments if and only if its buttons are absent or empty |
| Properties.CardWithButtonsRepliesWithOneHeroCard | server.js:119-143 | a `card` with buttons yields exactly one hero card with its title, subtitle and a one-element image list. Its buttons correspond one to one and in order to the card's buttons, with title, value and URL-prefix type |
| Properties.QuickRepliesBecomeSuggestedActions | server.js:147-149 | a `quickReplies` message is replaced by the suggested actions of its options under its title |
| Properties.PayloadPassesTeamsStructThrough | server.js:153-156 | a `payload` message is replaced by the conversion of the `structValue` under its `teams` field, and fails without that field |
| Properties.UnrecognizedKindStillReplies | server.js:104-163 | a message of any other kind still yields the bare `{type: 'message'}` activity |
| Properties.ConvertFailsIffPayloadLacksTeams | server.js:103-164 | converting a batch fails if and only if some response is a `payload` without a `teams` field |
| Properties.ConvertRepliesAppend | server.js:103-164 | converting a concatenated batch succeeds exactly when both parts do, and yields the two parts' replies concatenated |
| Properties.ConvertSeesOnlyFilteredResponses | server.js:100-103 | two batches the filter reduces to the same responses convert to the same replies |
| Properties.GreetingThenQuestionScenario | server.js:98-167 | `Hi!` followed by a yes/no question, both kept by the filter, become a text reply `Hi!` followed by suggested actions `Yes`, `No` under `Continue?` |

## Left out

- Platform tags: `ResponseMessage` carries no platform field. Only the filter reads it, and the filter is a parameter here (server.js:101).
- The Express route and the `BotFrameworkAdapter` turn handling (server.js:47-80): HTTP transport, `await`, logging and `sendActivities` are I/O.
- The two `console.log` calls inside `convertToTeamsMessage` (server.js:102 and 154): logging has no effect on the replies. The one at line 102 logs the `filterResponses` module object, not the filtered list.
- Properties.ConvertFailsIffPayloadLacksTeams: the "only if" half holds because the filter and `structProtoToJson` are modelled as functions that never throw, and the decoded string fields are assumed to be strings. A `structProtoToJson` that throws on the `undefined` it receives when `teams` holds a non-struct value (server.js:155-156) is not modelled. Neither is a `postback` that is not a string, which would make `startsWith` throw (server.js:124), or a `subtitle` that is not a string, which would make `heroCard` pick its other overload.
- Environment and credential wiring and client construction (server.js:34-45).
- `botlib/filter_responses.js` and `botlib/proto_to_json.js` are not part of this model. The filter and `structProtoToJson` are total function parameters with no further constraint, so no property of the filter (order, idempotence, platform tags) is stated.
- `botlib/dialogflow_session_client.js`: a network client for the Dialogflow CX API. Its request builders are record literals, and `constructRequest` depends on `json_to_proto`, which is not part of this model.
- The internals of `CardFactory` and `MessageFactory`: library calls, kept as opaque constructors.
- The `turnContext` argument of `convertToTeamsMessage`: the code never reads it.
- Protobuf numbers are doubles. The model keeps them as integers, because the conversion never inspects them.
- An empty alternative list makes the code set `text` to `undefined`. The model writes this as an absent text, which serialises the same way.
