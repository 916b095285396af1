/**
 * The Bot Framework (Microsoft Teams) side of the bridge: the activities
 * the bot sends back, and the cards and buttons they carry. The results of
 * `CardFactory` and `MessageFactory` are kept as opaque constructors, one per
 * call shape used by the bot.
 */
module Teams {
  import opened Optional

  /** The action a Teams card button performs. */
  datatype ActionType = OpenUrl | PostBack {
    /** The action type string the Bot Framework expects. */
    function Name(): string {
      match this
      case OpenUrl => "openUrl"
      case PostBack => "postBack"
    }
  }

  /** A card action `{type, title, value}`. */
  datatype TeamsButton = TeamsButton(action: ActionType, title: string, value: string)

  /** `CardFactory.images(urls)`: the image list of a hero card. */
  datatype CardImages = Images(urls: seq<string>)

  /** A hero-card attachment, by the argument shape `CardFactory.heroCard` was called with. */
  datatype Attachment =
    | HeroCard(title: string, images: CardImages)
    | HeroCardWithText(title: string, text: string, images: CardImages, buttons: seq<TeamsButton>)

  /** The JSON object `structProtoToJson` produces. */
  datatype Json =
    | JNull
    | JBool(flag: bool)
    | JNumber(number: int)
    | JString(str: string)
    | JArray(elements: seq<Json>)
    | JObject(members: map<string, Json>)

  /**
   * One reply activity. `Message` is the literal `{type: 'message'}` the bot
   * starts from, with the `text` and `attachments` properties it may set;
   * `SuggestedActions` is what `MessageFactory.suggestedActions(actions, title)`
   * returns; `Converted` is a custom payload used as the activity itself.
   */
  datatype Reply =
    | Message(text: Option<string>, attachments: Option<seq<Attachment>>)
    | SuggestedActions(actions: seq<string>, title: string)
    | Converted(json: Json)

  /** The bare `{type: 'message'}` activity. */
  const BareMessage: Reply := Message(None, None)
}
