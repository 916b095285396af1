/**
 * `convertToTeamsMessage`: turns the Dialogflow response messages of one
 * turn into the Teams activities the bot sends back.
 *
 * The response filter and `structProtoToJson` live in files this model does
 * not include, so both are parameters: total functions that always return and
 * never throw; nothing else is assumed about their results.
 */
module Convert {
  import opened Optional
  import opened Dialogflow
  import opened Teams

  /** The platform name the responses are filtered for. */
  const Platform: string := "TEAMS"

  /** A card button whose postback starts with this opens a URL. */
  const UrlPrefix: string := "http"

  /**
   * The one way a conversion can fail: a `payload` message without a `teams`
   * field makes the bot read `structValue` of `undefined`, and the resulting
   * `TypeError` rejects the whole conversion.
   */
  datatype ConvertError = PropertyOfUndefined(property: string)

  datatype Result<+T> = Success(value: T) | Failure(error: ConvertError)

  /** JavaScript's `String.prototype.startsWith`. */
  predicate StartsWith(s: string, prefix: string) {
    |prefix| <= |s| && s[..|prefix|] == prefix
  }

  /** A card button as a Teams action: same label and value, typed by the URL prefix test. */
  function ClassifyButton(b: Button): (t: TeamsButton)
    ensures t.title == b.text && t.value == b.postback
  {
    if StartsWith(b.postback, UrlPrefix) then TeamsButton(OpenUrl, b.text, b.postback)
    else TeamsButton(PostBack, b.text, b.postback)
  }

  /** The `forEach` that pushes one Teams button per card button. */
  function ClassifyButtons(buttons: seq<Button>): (ts: seq<TeamsButton>)
    ensures |ts| == |buttons|
    ensures forall i :: 0 <= i < |buttons| ==> ts[i] == ClassifyButton(buttons[i])
  {
    if buttons == [] then []
    else [ClassifyButton(buttons[0])] + ClassifyButtons(buttons[1..])
  }

  /** True when the card carries a non-empty button array. */
  predicate HasButtons(card: CardMessage) {
    card.buttons.Some? && |card.buttons.value| > 0
  }

  /** `text`: the first alternative, `undefined` when there is none. */
  function TextReply(alternatives: seq<string>): Reply {
    Message(if |alternatives| > 0 then Some(alternatives[0]) else None, None)
  }

  /** `image`: one hero card with an empty title and the image alone. */
  function ImageReply(imageUri: string): Reply {
    Message(None, Some([HeroCard("", Images([imageUri]))]))
  }

  /**
   * `card`: one hero card with title, subtitle, the image and the classified
   * buttons; without buttons, the bare message.
   */
  function CardReply(card: CardMessage): Reply {
    if HasButtons(card) then
      Message(None, Some([HeroCardWithText(card.title, card.subtitle, Images([card.imageUri]),
                                           ClassifyButtons(card.buttons.value))]))
    else BareMessage
  }

  /** `quickReplies`: the suggested-actions activity. */
  function QuickRepliesReply(qr: QuickRepliesMessage): Reply {
    SuggestedActions(qr.quickReplies, qr.title)
  }

  /** `payload`: the converted `teams` struct, used as the activity itself. */
  function PayloadReply(payload: ProtoStruct, structProtoToJson: Option<ProtoStruct> -> Json): Result<Reply> {
    if "teams" in payload.fields then
      Success(Converted(structProtoToJson(StructValueOf(payload.fields["teams"]))))
    else
      Failure(PropertyOfUndefined("structValue"))
  }

  /** The body of the `forEach` over the filtered responses: one reply, or the error it throws. */
  function MapResponse(response: ResponseMessage, structProtoToJson: Option<ProtoStruct> -> Json): (r: Result<Reply>)
    ensures r.Failure? <==> response.Payload? && "teams" !in response.payload.fields
    ensures r.Failure? ==> r.error == PropertyOfUndefined("structValue")
  {
    match response
    case Text(alternatives) => Success(TextReply(alternatives))
    case Image(uri) => Success(ImageReply(uri))
    case Card(card) => Success(CardReply(card))
    case QuickReplies(qr) => Success(QuickRepliesReply(qr))
    case Payload(payload) => PayloadReply(payload, structProtoToJson)
    case Unrecognized(_) => Success(BareMessage)
  }

  /**
   * The `forEach` itself: every response pushes its reply, in order, and the
   * first response that throws ends the conversion with its error.
   */
  function ConvertReplies(responses: seq<ResponseMessage>, structProtoToJson: Option<ProtoStruct> -> Json): (r: Result<seq<Reply>>)
    ensures r.Success? <==> forall i :: 0 <= i < |responses| ==> MapResponse(responses[i], structProtoToJson).Success?
    ensures r.Success? ==> |r.value| == |responses|
    ensures r.Success? ==> forall i :: 0 <= i < |responses| ==> r.value[i] == MapResponse(responses[i], structProtoToJson).value
    ensures r.Failure? ==>
      exists i :: 0 <= i < |responses| && MapResponse(responses[i], structProtoToJson) == Failure(r.error)
        && forall j :: 0 <= j < i ==> MapResponse(responses[j], structProtoToJson).Success?
  {
    if responses == [] then Success([])
    else
      var tail := responses[1..];
      assert forall k :: 0 <= k < |tail| ==> tail[k] == responses[k + 1];
      match MapResponse(responses[0], structProtoToJson)
      case Failure(e) => Failure(e)
      case Success(reply) =>
        match ConvertReplies(tail, structProtoToJson)
        case Failure(e) => Failure(e)
        case Success(rest) => Success([reply] + rest)
  }

  /**
   * `convertToTeamsMessage`. Anything but an array yields no replies;
   * otherwise the array is filtered for Teams and every surviving response
   * yields exactly one reply, at its own position.
   */
  function ConvertToTeamsMessage(
    responses: Responses,
    filterResponses: (seq<ResponseMessage>, string) -> seq<ResponseMessage>,
    structProtoToJson: Option<ProtoStruct> -> Json): (r: Result<seq<Reply>>)
    ensures responses.NotAnArray? ==> r == Success([])
    ensures responses.ResponseArray? ==>
      var filtered := filterResponses(responses.items, Platform);
      && (r.Success? <==> forall i :: 0 <= i < |filtered| ==> MapResponse(filtered[i], structProtoToJson).Success?)
      && (r.Success? ==> |r.value| == |filtered|)
      && (r.Success? ==> forall i :: 0 <= i < |filtered| ==> r.value[i] == MapResponse(filtered[i], structProtoToJson).value)
  {
    match responses
    case NotAnArray => Success([])
    case ResponseArray(items) => ConvertReplies(filterResponses(items, Platform), structProtoToJson)
  }
}
