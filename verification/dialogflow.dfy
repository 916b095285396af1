/**
 * The Dialogflow side of the bridge: the response messages the engine returns
 * for one turn, and the protobuf `Struct` values a custom payload is made of.
 */
module Dialogflow {
  import opened Optional

  /** `google.protobuf.Value`; numbers are kept as integers. */
  datatype ProtoValue =
    | NullValue
    | NumberValue(number: int)
    | StringValue(str: string)
    | BoolValue(flag: bool)
    | StructValue(struct: ProtoStruct)
    | ListValue(values: seq<ProtoValue>)

  /** `google.protobuf.Struct`: a map from field names to values. */
  datatype ProtoStruct = ProtoStruct(fields: map<string, ProtoValue>)

  /**
   * The `structValue` property of a decoded `Value`: present only when the
   * value holds a struct, `undefined` for every other kind.
   */
  function StructValueOf(v: ProtoValue): Option<ProtoStruct> {
    match v
    case StructValue(st) => Some(st)
    case _ => None
  }

  /** A card button: its label and the value sent back (a URL or a postback token). */
  datatype Button = Button(text: string, postback: string)

  /**
   * The `card` message. `buttons` is `None` when the message carries no
   * button array at all.
   */
  datatype CardMessage = CardMessage(
    title: string,
    subtitle: string,
    imageUri: string,
    buttons: Option<seq<Button>>)

  /** The `quickReplies` message: a prompt and the reply options offered under it. */
  datatype QuickRepliesMessage = QuickRepliesMessage(title: string, quickReplies: seq<string>)

  /**
   * One response message, tagged by the name of the field its `message` oneof
   * holds. `Unrecognized` stands for every other tag the engine may send
   * (`conversationSuccess`, `endInteraction`, ...), with the tag itself kept;
   * that tag is never one of the five names handled here.
   */
  datatype ResponseMessage =
    | Text(text: seq<string>)
    | Image(imageUri: string)
    | Card(card: CardMessage)
    | QuickReplies(quickReplies: QuickRepliesMessage)
    | Payload(payload: ProtoStruct)
    | Unrecognized(tag: string)

  /**
   * The value handed to the converter as `responses`: either an array of
   * response messages or anything else (`undefined`, an object, ...).
   */
  datatype Responses = ResponseArray(items: seq<ResponseMessage>) | NotAnArray
}
