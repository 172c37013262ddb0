/** The outbound webhook response (responses.go): the closed family of
    fulfillment messages, the in-place builders and the rich-content cards. */
module Responses {
  import opened Wrappers
  import opened Json
  import Requests

  datatype Source = Source(text: string, ssml: string)

  datatype OutputAudioText = OutputAudioText(allowPlaybackInterruption: bool, source: Source)

  datatype Icon = Icon(color: string, iconType: string)

  datatype Event = Event(parameters: map<string, string>, name: string, languageCode: string)

  /** One card. `Event` and `Icon` are optional pointers. */
  datatype RichContent = RichContent(
    contentType: string,
    title: string,
    text: string,
    event: Option<Event>,
    icon: Option<Icon>,
    link: string)

  /** The four implementors of the `Message` marker interface. A rich-contents
      message points at a `RichContents` object (nil is `null`), so a card
      added to that object later is seen through every message that shares it. */
  datatype Message =
    | TextMessage(text: Requests.Text)
    | OutputAudioTextMessage(outputAudioText: OutputAudioText)
    | PayloadMessage(payload: map<string, JsonValue>)
    | RichContentsMessage(contents: RichContents?)

  /** The rows of cards of a rich-contents payload. */
  class RichContents {
    var richContent: seq<seq<RichContent>>

    constructor (rows: seq<seq<RichContent>>)
      ensures richContent == rows
    {
      richContent := rows;
    }

    /** Appends `c` to the end of row 0. Row 0 must exist: the source indexes
        it without a check and panics on an empty row list. Every other row and
        the number of rows stay as they were. */
    method AddContents(c: RichContent)
      requires |richContent| >= 1
      modifies this
      ensures |richContent| == |old(richContent)|
      ensures richContent[0] == old(richContent[0]) + [c]
      ensures forall i :: 1 <= i < |richContent| ==> richContent[i] == old(richContent[i])
    {
      richContent := richContent[0 := richContent[0] + [c]];
    }
  }

  /** Whether `AddContents` may be called through this pointer. */
  predicate CanAddContents(cs: RichContents?)
    reads cs
  {
    cs != null && |cs.richContent| >= 1
  }

  /** `NewRichContentsMessage` as written: it starts from a zero-valued message,
      whose payload pointer is nil, and hands a non-nil card to
      `Payload.AddContents`. The requires clause is the condition that call
      needs of the zero-valued message's payload; since that payload is nil,
      only a nil card meets it, and the result is the message with a nil
      payload. */
  function NewRichContentsMessage(c: Option<RichContent>): (m: Message)
    requires c.Some? ==> CanAddContents(RichContentsMessage(null).contents)
    ensures m.RichContentsMessage? && m.contents == null
  {
    RichContentsMessage(null)
  }

  /** No card can be added through the payload of a zero-valued message: the
      precondition of `NewRichContentsMessage` excludes every non-nil card. */
  lemma NewRichContentsMessageRejectsCards(card: RichContent)
    ensures !(Some(card).Some? ==> CanAddContents(RichContentsMessage(null).contents))
  {
  }

  /** The evident intent of `NewRichContentsMessage`: a nil card gives the
      message with a nil payload, and a card gives a fresh payload of one row
      holding just that card. The first row is allocated before the append. */
  method NewRichContentsMessageWithRow(c: Option<RichContent>) returns (m: Message)
    ensures m.RichContentsMessage?
    ensures c.None? ==> m.contents == null
    ensures c.Some? ==> m.contents != null && fresh(m.contents) && m.contents.richContent == [[c.value]]
  {
    if c.None? {
      return RichContentsMessage(null);
    }
    var payload := new RichContents([[]]);
    payload.AddContents(c.value);
    assert payload.richContent[0] == [c.value];
    return RichContentsMessage(payload);
  }

  /** The messages to render, in order, and the merge behaviour. */
  class FulfillmentResponse {
    var messages: seq<Message>
    var mergeBehavior: int

    constructor (messages: seq<Message>, mergeBehavior: int)
      ensures this.messages == messages && this.mergeBehavior == mergeBehavior
    {
      this.messages := messages;
      this.mergeBehavior := mergeBehavior;
    }

    /** Appends exactly one message at the end; earlier messages and the merge
        behaviour are unchanged. */
    method AddMessage(m: Message)
      modifies this
      ensures messages == old(messages) + [m]
      ensures mergeBehavior == old(mergeBehavior)
    {
      messages := messages + [m];
    }
  }

  class WebhookResponse {
    var fulfillmentResponse: FulfillmentResponse?
    var pageInfo: Option<Requests.PageInfo>
    var sessionInfo: Option<Requests.SessionInfo>
    var payload: map<string, string>

    /** `&WebhookResponse{...}` from its four fields. */
    constructor (fulfillmentResponse: FulfillmentResponse?, pageInfo: Option<Requests.PageInfo>,
                 sessionInfo: Option<Requests.SessionInfo>, payload: map<string, string>)
      ensures this.fulfillmentResponse == fulfillmentResponse
      ensures this.pageInfo == pageInfo && this.sessionInfo == sessionInfo && this.payload == payload
    {
      this.fulfillmentResponse := fulfillmentResponse;
      this.pageInfo := pageInfo;
      this.sessionInfo := sessionInfo;
      this.payload := payload;
    }

    /** Fluent append: the caller must have attached a fulfillment response
        (the source dereferences it unchecked). The message is appended to that
        same fulfillment response, nothing else changes, and the response itself
        is returned for chaining. */
    method AddMessage(m: Message) returns (self: WebhookResponse)
      requires fulfillmentResponse != null
      modifies fulfillmentResponse
      ensures self == this
      ensures fulfillmentResponse == old(fulfillmentResponse)
      ensures fulfillmentResponse.messages == old(fulfillmentResponse.messages) + [m]
      ensures fulfillmentResponse.mergeBehavior == old(fulfillmentResponse.mergeBehavior)
    {
      fulfillmentResponse.AddMessage(m);
      return this;
    }

    /** The state change of `TextResponse` before it encodes: a new fulfillment
        response holding one text message with `msgs`, playback interruption
        allowed and merge behaviour 0, replaces the old one (which is left
        untouched); page, session and payload stay. */
    method TextResponse(msgs: seq<string>)
      modifies this
      ensures fulfillmentResponse != null && fresh(fulfillmentResponse)
      ensures fulfillmentResponse.messages == [TextMessage(Requests.Text(msgs, [], true))]
      ensures fulfillmentResponse.mergeBehavior == 0
      ensures old(fulfillmentResponse) != null ==> unchanged(old(fulfillmentResponse))
      ensures pageInfo == old(pageInfo) && sessionInfo == old(sessionInfo) && payload == old(payload)
    {
      var t := Requests.Text(msgs, [], true);
      var m := TextMessage(t);
      fulfillmentResponse := new FulfillmentResponse([m], 0);
    }

    /** The state change of `SSMLResponse` before it encodes: a new fulfillment
        response holding one synthesized-speech message whose source is the
        markup `msg` (plain text empty), playback interruption allowed and merge
        behaviour 0, replaces the old one (which is left untouched); page,
        session and payload stay. */
    method SSMLResponse(msg: string)
      modifies this
      ensures fulfillmentResponse != null && fresh(fulfillmentResponse)
      ensures fulfillmentResponse.messages == [OutputAudioTextMessage(OutputAudioText(true, Source("", msg)))]
      ensures fulfillmentResponse.mergeBehavior == 0
      ensures old(fulfillmentResponse) != null ==> unchanged(old(fulfillmentResponse))
      ensures pageInfo == old(pageInfo) && sessionInfo == old(sessionInfo) && payload == old(payload)
    {
      var t := OutputAudioText(true, Source("", msg));
      var m := OutputAudioTextMessage(t);
      fulfillmentResponse := new FulfillmentResponse([m], 0);
    }
  }

  /** `NewTextResponse(msgs...)`: a fresh response holding a fresh fulfillment
      response with one text message carrying `msgs`, playback interruption
      not allowed, merge behaviour 0, and no page, session or payload. */
  method NewTextResponse(msgs: seq<string>) returns (wr: WebhookResponse)
    ensures fresh(wr) && wr.fulfillmentResponse != null && fresh(wr.fulfillmentResponse)
    ensures wr.fulfillmentResponse.messages == [TextMessage(Requests.Text(msgs, [], false))]
    ensures wr.fulfillmentResponse.mergeBehavior == 0
    ensures wr.pageInfo == None && wr.sessionInfo == None && wr.payload == map[]
  {
    var fr := new FulfillmentResponse([TextMessage(Requests.Text(msgs, [], false))], 0);
    wr := new WebhookResponse(fr, None, None, map[]);
  }

  /** A caller building a response from these contracts alone: a text
      response, then two more messages chained on; a card added later to a
      payload that a queued message points at is seen through that message;
      then the one-shot helpers, which replace the fulfillment response and
      leave the old one as it was. */
  method BuildResponses(card: RichContent, more: RichContent, sessionInfo: Requests.SessionInfo)
  {
    var wr := NewTextResponse(["Hello"]);
    var fr := wr.fulfillmentResponse;
    wr.sessionInfo := Some(sessionInfo);
    var ssml := OutputAudioTextMessage(OutputAudioText(false, Source("", "<speak>Hi</speak>")));
    var same := wr.AddMessage(ssml);
    var rich := NewRichContentsMessageWithRow(Some(card));
    same := same.AddMessage(rich);
    assert same == wr;
    assert |wr.fulfillmentResponse.messages| == 3;
    assert wr.fulfillmentResponse.messages[1] == ssml;
    rich.contents.AddContents(more);
    assert rich.contents.richContent[0] == [card, more];
    assert wr.fulfillmentResponse.messages[2].contents.richContent == [[card, more]];

    wr.TextResponse(["Hello", "Hi"]);
    assert wr.fulfillmentResponse.messages[0].text.text == ["Hello", "Hi"];
    assert wr.fulfillmentResponse.messages[0].text.allowPlaybackInterruption;
    assert wr.sessionInfo == Some(sessionInfo);
    assert |fr.messages| == 3;

    wr.SSMLResponse("<speak>Hi</speak>");
    assert wr.fulfillmentResponse.messages[0].outputAudioText.source.ssml == "<speak>Hi</speak>";
  }
}
