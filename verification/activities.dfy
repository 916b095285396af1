/**
 * The incoming Bot Framework activity and the small predicates the turn
 * handler uses to decide what to do with it.
 */
module Activities {
  import opened Optional

  /** A participant of a conversation. */
  datatype ChannelAccount = ChannelAccount(id: string)

  /**
   * The parts of an incoming activity the handler reads. `membersAdded` is
   * `None` when the activity has no such array.
   */
  datatype Activity = Activity(
    activityType: string,
    text: Option<string>,
    membersAdded: Option<seq<ChannelAccount>>)

  datatype TurnContext = TurnContext(activity: Activity)

  /** Bot Framework's activity type for a user message. */
  const MessageType: string := "message"

  function TurnContextType(tc: TurnContext): string {
    tc.activity.activityType
  }

  predicate IsMessage(tc: TurnContext) {
    TurnContextType(tc) == MessageType
  }

  function GetMessageText(tc: TurnContext): Option<string> {
    tc.activity.text
  }

  predicate IsMemberAdded(tc: TurnContext) {
    tc.activity.membersAdded.Some?
  }

  /**
   * Each accessor reads one field of the activity: changing any other field
   * does not change what it answers.
   */
  lemma AccessorsReadOneFieldEach(tc: TurnContext, t: string, txt: Option<string>, ms: Option<seq<ChannelAccount>>)
    ensures IsMessage(tc) <==> IsMessage(TurnContext(tc.activity.(text := txt, membersAdded := ms)))
    ensures IsMessage(TurnContext(tc.activity.(activityType := t))) <==> t == MessageType
    ensures GetMessageText(TurnContext(tc.activity.(activityType := t, membersAdded := ms))) == GetMessageText(tc)
    ensures GetMessageText(TurnContext(tc.activity.(text := txt))) == txt
    ensures IsMemberAdded(tc) <==> IsMemberAdded(TurnContext(tc.activity.(activityType := t, text := txt)))
    ensures IsMemberAdded(TurnContext(tc.activity.(membersAdded := ms))) <==> ms.Some?
  {
  }
}
