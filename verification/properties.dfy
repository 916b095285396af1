/**
 * What `convertToTeamsMessage` promises, kind by kind and for whole batches.
 */
module Properties {
  import opened Optional
  import opened Dialogflow
  import opened Teams
  import opened Convert

  /** `startsWith` holds exactly when the string is the prefix followed by something. */
  lemma StartsWithIffPrefixConcat(s: string, prefix: string)
    ensures StartsWith(s, prefix) <==> exists rest :: s == prefix + rest
  {
    if StartsWith(s, prefix) {
      assert s == prefix + s[|prefix|..];
    }
    if exists rest :: s == prefix + rest {
      var rest :| s == prefix + rest;
      assert s[..|prefix|] == prefix;
    }
  }

  /**
   * A button opens a URL, with type string `openUrl`, exactly when its postback
   * begins with the four letters "http"; otherwise it posts back, with type string `postBack`.
   */
  lemma ButtonOpensUrlIffHttpPrefix(b: Button)
    ensures ClassifyButton(b).action == OpenUrl <==> exists rest :: b.postback == "http" + rest
    ensures ClassifyButton(b).action == PostBack <==> !exists rest :: b.postback == "http" + rest
    ensures ClassifyButton(b).action.Name() == (if exists rest :: b.postback == "http" + rest then "openUrl" else "postBack")
  {
    StartsWithIffPrefixConcat(b.postback, UrlPrefix);
  }

  /**
   * The prefix test is literal and case-sensitive: a postback token that merely
   * begins with "http" opens a URL, an upper-case scheme posts back.
   */
  lemma ButtonClassificationExamples()
    ensures ClassifyButton(Button("Go", "https://example.com")) == TeamsButton(OpenUrl, "Go", "https://example.com")
    ensures ClassifyButton(Button("Buy", "SKU123")) == TeamsButton(PostBack, "Buy", "SKU123")
    ensures ClassifyButton(Button("Ask", "httpQuestion")).action == OpenUrl
    ensures ClassifyButton(Button("Go", "HTTP://EXAMPLE.COM")).action == PostBack
    ensures ClassifyButton(Button("Go", "htt")).action == PostBack
  {
    assert "https://example.com"[..4] == "http";
    assert "httpQuestion"[..4] == "http";
    assert "HTTP://EXAMPLE.COM"[..4] != "http" by { assert "HTTP://EXAMPLE.COM"[0] != "http"[0]; }
  }

  /** A `text` message replies with its first alternative and ignores the others. */
  lemma TextRepliesWithFirstAlternative(first: string, others: seq<string>, structProtoToJson: Option<ProtoStruct> -> Json)
    ensures MapResponse(Text([first] + others), structProtoToJson) == Success(Message(Some(first), None))
  {
  }

  /** A `text` message without alternatives replies with a message whose text is undefined. */
  lemma TextWithoutAlternatives(structProtoToJson: Option<ProtoStruct> -> Json)
    ensures MapResponse(Text([]), structProtoToJson) == Success(Message(None, None))
  {
  }

  /** An `image` message replies with exactly one hero card: empty title, the one image. */
  lemma ImageRepliesWithOneHeroCard(imageUri: string, structProtoToJson: Option<ProtoStruct> -> Json)
    ensures MapResponse(Image(imageUri), structProtoToJson) == Success(Message(None, Some([HeroCard("", Images([imageUri]))])))
  {
  }

  /**
   * A `card` message replies with the bare message, with no attachments,
   * exactly when its buttons are absent or empty; it is never dropped.
   */
  lemma CardWithoutButtonsIsBareMessage(card: CardMessage, structProtoToJson: Option<ProtoStruct> -> Json)
    ensures MapResponse(Card(card), structProtoToJson).Success?
    ensures MapResponse(Card(card), structProtoToJson).value == BareMessage
        <==> card.buttons.None? || card.buttons.value == []
  {
  }

  /**
   * A `card` message with buttons replies with exactly one hero card built
   * from its title, subtitle and image, carrying one Teams button per card
   * button in the same order: same label and value, opening a URL exactly
   * when the postback starts with "http".
   */
  lemma CardWithButtonsRepliesWithOneHeroCard(card: CardMessage, structProtoToJson: Option<ProtoStruct> -> Json)
    requires card.buttons.Some? && card.buttons.value != []
    ensures var r := MapResponse(Card(card), structProtoToJson);
      && r.Success? && r.value.Message? && r.value.text.None?
      && r.value.attachments.Some? && |r.value.attachments.value| == 1
      && var hero := r.value.attachments.value[0];
      && hero.HeroCardWithText?
      && hero.title == card.title && hero.text == card.subtitle
      && hero.images == Images([card.imageUri])
      && |hero.buttons| == |card.buttons.value|
      && forall i :: 0 <= i < |hero.buttons| ==>
           && hero.buttons[i].title == card.buttons.value[i].text
           && hero.buttons[i].value == card.buttons.value[i].postback
           && (hero.buttons[i].action == OpenUrl <==> StartsWith(card.buttons.value[i].postback, "http"))
  {
  }

  /** A `quickReplies` message replaces the reply with the suggested actions of its options under its title. */
  lemma QuickRepliesBecomeSuggestedActions(qr: QuickRepliesMessage, structProtoToJson: Option<ProtoStruct> -> Json)
    ensures MapResponse(QuickReplies(qr), structProtoToJson) == Success(SuggestedActions(qr.quickReplies, qr.title))
  {
  }

  /**
   * A `payload` message replaces the reply with the conversion of the struct
   * under its `teams` field; without that field the conversion fails.
   */
  lemma PayloadPassesTeamsStructThrough(payload: ProtoStruct, structProtoToJson: Option<ProtoStruct> -> Json)
    ensures "teams" in payload.fields ==>
      MapResponse(Payload(payload), structProtoToJson) == Success(Converted(structProtoToJson(StructValueOf(payload.fields["teams"]))))
    ensures "teams" !in payload.fields ==>
      MapResponse(Payload(payload), structProtoToJson) == Failure(PropertyOfUndefined("structValue"))
  {
  }

  /** A message of any other kind still yields the bare message: it is not dropped. */
  lemma UnrecognizedKindStillReplies(tag: string, structProtoToJson: Option<ProtoStruct> -> Json)
    requires tag !in {"text", "image", "card", "quickReplies", "payload"}
    ensures MapResponse(Unrecognized(tag), structProtoToJson) == Success(BareMessage)
  {
  }

  /** The only response that cannot be replied to is a `payload` without a `teams` field. */
  predicate LacksTeamsPayload(response: ResponseMessage) {
    response.Payload? && "teams" !in response.payload.fields
  }

  /** Conversion of a batch fails exactly when some response is a `payload` without a `teams` field. */
  lemma ConvertFailsIffPayloadLacksTeams(responses: seq<ResponseMessage>, structProtoToJson: Option<ProtoStruct> -> Json)
    ensures ConvertReplies(responses, structProtoToJson).Failure?
        <==> exists i :: 0 <= i < |responses| && LacksTeamsPayload(responses[i])
  {
    forall i | 0 <= i < |responses|
      ensures MapResponse(responses[i], structProtoToJson).Failure? <==> LacksTeamsPayload(responses[i])
    {
      if responses[i].Payload? {
        PayloadPassesTeamsStructThrough(responses[i].payload, structProtoToJson);
      }
    }
  }

  /**
   * Replies of a concatenated batch are the replies of each part, concatenated:
   * the conversion works response by response and keeps their order.
   */
  lemma ConvertRepliesAppend(a: seq<ResponseMessage>, b: seq<ResponseMessage>, structProtoToJson: Option<ProtoStruct> -> Json)
    ensures ConvertReplies(a + b, structProtoToJson).Success?
        <==> ConvertReplies(a, structProtoToJson).Success? && ConvertReplies(b, structProtoToJson).Success?
    ensures ConvertReplies(a + b, structProtoToJson).Success? ==>
      ConvertReplies(a + b, structProtoToJson).value
        == ConvertReplies(a, structProtoToJson).value + ConvertReplies(b, structProtoToJson).value
  {
    var ab, ra, rb := ConvertReplies(a + b, structProtoToJson), ConvertReplies(a, structProtoToJson), ConvertReplies(b, structProtoToJson);
    forall i | 0 <= i < |a|
      ensures MapResponse((a + b)[i], structProtoToJson) == MapResponse(a[i], structProtoToJson)
    {
      assert (a + b)[i] == a[i];
    }
    forall j | 0 <= j < |b|
      ensures MapResponse((a + b)[|a| + j], structProtoToJson) == MapResponse(b[j], structProtoToJson)
    {
      assert (a + b)[|a| + j] == b[j];
    }
    if ab.Success? {
      assert ra.Success? by {
        forall i | 0 <= i < |a| ensures MapResponse(a[i], structProtoToJson).Success? {
          assert MapResponse((a + b)[i], structProtoToJson).Success?;
        }
      }
      assert rb.Success? by {
        forall j | 0 <= j < |b| ensures MapResponse(b[j], structProtoToJson).Success? {
          assert MapResponse((a + b)[|a| + j], structProtoToJson).Success?;
        }
      }
      assert ab.value == ra.value + rb.value;
    }
    if ra.Success? && rb.Success? {
      forall k | 0 <= k < |a + b| ensures MapResponse((a + b)[k], structProtoToJson).Success? {
        if k < |a| {
          assert MapResponse(a[k], structProtoToJson).Success?;
        } else {
          assert MapResponse(b[k - |a|], structProtoToJson).Success?;
          assert (a + b)[|a| + (k - |a|)] == (a + b)[k];
        }
      }
    }
  }

  /** Only what the filter lets through for Teams matters to the conversion. */
  lemma ConvertSeesOnlyFilteredResponses(
    xs: seq<ResponseMessage>, ys: seq<ResponseMessage>,
    filterResponses: (seq<ResponseMessage>, string) -> seq<ResponseMessage>,
    structProtoToJson: Option<ProtoStruct> -> Json)
    requires filterResponses(xs, Platform) == filterResponses(ys, Platform)
    ensures ConvertToTeamsMessage(ResponseArray(xs), filterResponses, structProtoToJson)
         == ConvertToTeamsMessage(ResponseArray(ys), filterResponses, structProtoToJson)
  {
  }

  /**
   * A greeting followed by a yes/no question, both let through by the filter,
   * become a text message followed by the suggested actions.
   */
  lemma GreetingThenQuestionScenario(structProtoToJson: Option<ProtoStruct> -> Json)
    ensures
      var responses := [Text(["Hi!"]), QuickReplies(QuickRepliesMessage("Continue?", ["Yes", "No"]))];
      ConvertToTeamsMessage(ResponseArray(responses), (rs, platform) => rs, structProtoToJson)
        == Success([Message(Some("Hi!"), None), SuggestedActions(["Yes", "No"], "Continue?")])
  {
    var responses := [Text(["Hi!"]), QuickReplies(QuickRepliesMessage("Continue?", ["Yes", "No"]))];
    var r := ConvertToTeamsMessage(ResponseArray(responses), (rs, platform) => rs, structProtoToJson);
    assert MapResponse(responses[0], structProtoToJson) == Success(Message(Some("Hi!"), None));
    assert MapResponse(responses[1], structProtoToJson) == Success(SuggestedActions(["Yes", "No"], "Continue?"));
    assert r.Success?;
    assert r.value == [r.value[0], r.value[1]];
  }
}
