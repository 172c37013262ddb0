/** The inbound webhook call (requests.go): the request records, the
    session-path parser and the decode-result policies. */
module Requests {
  import opened Wrappers
  import opened Errors
  import opened Json
  import opened Strings

  datatype IntentInfo = IntentInfo(lastMatchedIntent: string, displayName: string, confidence: Float64)

  datatype ParameterInfo = ParameterInfo(
    displayName: string,
    required: bool,
    state: string,
    value: JsonValue,
    justCollected: bool)

  datatype FormInfo = FormInfo(parameterInfo: seq<ParameterInfo>)

  datatype PageInfo = PageInfo(currentPage: string, displayName: string, formInfo: FormInfo)

  datatype FulfillmentInfo = FulfillmentInfo(tag: string)

  datatype Text = Text(text: seq<string>, redactedText: seq<string>, allowPlaybackInterruption: bool)

  /** One conversational turn the platform already rendered. */
  datatype Messages = Messages(text: Text, responseType: string, source: string)

  /** The session path and the session parameters. */
  datatype SessionInfo = SessionInfo(session: string, parameters: map<string, JsonValue>)
  {
    /** The session identifier: part 7 of the path split on '/'
        (`projects/P/locations/L/agents/A/sessions/S`). Fails, reporting the
        number of parts, exactly when the path has fewer than 7 slashes, that is
        fewer than 8 parts. No part is compared with the literal words of the
        path format, and extra parts after the eighth are accepted. */
    function ExtractSession(): (r: Result<string, Error>)
      ensures r.Failure? <==> Count(session, '/') < 7
      ensures r.Failure? ==> r.error == SessionTooShort(Count(session, '/') + 1)
      ensures r.Success? ==> '/' !in r.value
    {
      var parts := Split(session, '/');
      if |parts| < 8 then Failure(SessionTooShort(|parts|)) else Success(parts[7])
    }
  }

  /** The parser reads a path built from '/'-free parts positionally: fewer
      than 8 parts is an error carrying their number, otherwise part 7, however
      many parts follow and whatever the earlier parts say. */
  lemma ExtractSessionOfParts(parts: seq<string>, parameters: map<string, JsonValue>)
    requires |parts| >= 1
    requires forall i :: 0 <= i < |parts| ==> '/' !in parts[i]
    ensures SessionInfo(Join(parts, '/'), parameters).ExtractSession() ==
              if |parts| < 8 then Failure(SessionTooShort(|parts|)) else Success(parts[7])
  {
    SplitJoin(parts, '/');
  }

  /** The path built from eight parts. */
  lemma JoinEight(w0: string, w1: string, w2: string, w3: string,
                  w4: string, w5: string, w6: string, w7: string)
    ensures Join([w0, w1, w2, w3, w4, w5, w6, w7], '/') ==
              w0 + "/" + w1 + "/" + w2 + "/" + w3 + "/" + w4 + "/" + w5 + "/" + w6 + "/" + w7
  {
    JoinFour(w0, w1, w2, w3, '/');
    JoinFour(w4, w5, w6, w7, '/');
    JoinAppend([w0, w1, w2, w3], [w4, w5, w6, w7], '/');
    assert [w0, w1, w2, w3] + [w4, w5, w6, w7] == [w0, w1, w2, w3, w4, w5, w6, w7];
  }

  /** Any eight '/'-free parts joined by '/' yield the last one: the parser
      does not look at what the first seven say. */
  lemma ExtractSessionOfEight(w0: string, w1: string, w2: string, w3: string,
                              w4: string, w5: string, w6: string, w7: string,
                              parameters: map<string, JsonValue>)
    requires '/' !in w0 && '/' !in w1 && '/' !in w2 && '/' !in w3
    requires '/' !in w4 && '/' !in w5 && '/' !in w6 && '/' !in w7
    ensures SessionInfo(w0 + "/" + w1 + "/" + w2 + "/" + w3 + "/" + w4 + "/" + w5 + "/" + w6 + "/" + w7, parameters)
              .ExtractSession() == Success(w7)
  {
    JoinEight(w0, w1, w2, w3, w4, w5, w6, w7);
    ExtractSessionOfParts([w0, w1, w2, w3, w4, w5, w6, w7], parameters);
  }

  /** Anything after the eighth part is ignored: `…/w7/rest` still yields
      `w7`, whatever `rest` holds. */
  lemma ExtractSessionIgnoresRest(w0: string, w1: string, w2: string, w3: string,
                                  w4: string, w5: string, w6: string, w7: string,
                                  rest: string, parameters: map<string, JsonValue>)
    requires '/' !in w0 && '/' !in w1 && '/' !in w2 && '/' !in w3
    requires '/' !in w4 && '/' !in w5 && '/' !in w6 && '/' !in w7
    ensures SessionInfo(w0 + "/" + w1 + "/" + w2 + "/" + w3 + "/" + w4 + "/" + w5 + "/" + w6 + "/" + w7 + "/" + rest,
                        parameters).ExtractSession() == Success(w7)
  {
    var head := [w0, w1, w2, w3, w4, w5, w6, w7];
    var tail := Split(rest, '/');
    JoinEight(w0, w1, w2, w3, w4, w5, w6, w7);
    JoinSplit(rest, '/');
    JoinAppend(head, tail, '/');
    ExtractSessionOfParts(head + tail, parameters);
  }

  /** The canonical form `projects/P/locations/L/agents/A/sessions/S`
      yields `S`. */
  lemma ExtractSessionOfPath(p: string, l: string, a: string, s: string, parameters: map<string, JsonValue>)
    requires '/' !in p && '/' !in l && '/' !in a && '/' !in s
    ensures SessionInfo("projects/" + p + "/locations/" + l + "/agents/" + a + "/sessions/" + s, parameters)
              .ExtractSession() == Success(s)
  {
    var path := "projects/" + p + "/locations/" + l + "/agents/" + a + "/sessions/" + s;
    var w0, w2, w4, w6 := "projects", "locations", "agents", "sessions";
    assert '/' !in w0 && '/' !in w2 && '/' !in w4 && '/' !in w6;
    assert path == w0 + "/" + p + "/" + w2 + "/" + l + "/" + w4 + "/" + a + "/" + w6 + "/" + s;
    ExtractSessionOfEight(w0, p, w2, l, w4, a, w6, s, parameters);
  }

  /** Three '/'-free parts are too few, and the error says 3. */
  lemma ExtractSessionOfThree(w0: string, w1: string, w2: string, parameters: map<string, JsonValue>)
    requires '/' !in w0 && '/' !in w1 && '/' !in w2
    ensures SessionInfo(w0 + "/" + w1 + "/" + w2, parameters).ExtractSession() == Failure(SessionTooShort(3))
  {
    JoinCons(w0, [w1, w2], '/');
    JoinCons(w1, [w2], '/');
    assert [w0] + [w1, w2] == [w0, w1, w2];
    assert [w1] + [w2] == [w1, w2];
    assert Join([w0, w1, w2], '/') == w0 + "/" + w1 + "/" + w2;
    ExtractSessionOfParts([w0, w1, w2], parameters);
  }

  /** A well-formed path yields its last part, `s1`. */
  lemma ExtractSessionWellFormedExample()
    ensures SessionInfo("projects/p/locations/l/agents/a/sessions/s1", map[]).ExtractSession() == Success("s1")
  {
    var p, l, a, s1 := "p", "l", "a", "s1";
    var w0, w2, w4, w6 := "projects", "locations", "agents", "sessions";
    assert '/' !in w0 && '/' !in w2 && '/' !in w4 && '/' !in w6;
    assert '/' !in p && '/' !in l && '/' !in a && '/' !in s1;
    assert "projects/p/locations/l/agents/a/sessions/s1"
        == w0 + "/" + p + "/" + w2 + "/" + l + "/" + w4 + "/" + a + "/" + w6 + "/" + s1;
    ExtractSessionOfEight(w0, p, w2, l, w4, a, w6, s1, map[]);
  }

  /** The same path with a ninth part still yields `s1`. */
  lemma ExtractSessionLongerExample()
    ensures SessionInfo("projects/p/locations/l/agents/a/sessions/s1/x", map[]).ExtractSession() == Success("s1")
  {
    var p, l, a, s1, x := "p", "l", "a", "s1", "x";
    var w0, w2, w4, w6 := "projects", "locations", "agents", "sessions";
    assert '/' !in w0 && '/' !in w2 && '/' !in w4 && '/' !in w6;
    assert '/' !in p && '/' !in l && '/' !in a && '/' !in s1;
    var eight := w0 + "/" + p + "/" + w2 + "/" + l + "/" + w4 + "/" + a + "/" + w6 + "/" + s1;
    assert eight == "projects/p/locations/l/agents/a/sessions/s1";
    assert "projects/p/locations/l/agents/a/sessions/s1/x" == eight + "/" + x;
    ExtractSessionIgnoresRest(w0, p, w2, l, w4, a, w6, s1, x, map[]);
  }

  /** `too/short/path` reports 3 parts; the empty path reports 1, because
      splitting "" gives one empty part. */
  lemma ExtractSessionRejectsExamples()
    ensures SessionInfo("too/short/path", map[]).ExtractSession() == Failure(SessionTooShort(3))
    ensures SessionInfo("", map[]).ExtractSession() == Failure(SessionTooShort(1))
  {
    var too, short, path := "too", "short", "path";
    assert '/' !in too && '/' !in short && '/' !in path;
    assert "too/short/path" == too + "/" + short + "/" + path;
    ExtractSessionOfThree(too, short, path, map[]);
  }

  datatype WebhookRequest = WebhookRequest(
    detectIntentResponseId: string,
    intentInfo: IntentInfo,
    pageInfo: PageInfo,
    sessionInfo: SessionInfo,
    fulfillmentInfo: FulfillmentInfo,
    messages: seq<Messages>,
    payload: map<string, JsonValue>,
    text: string,
    languageCode: string)

  /** `var wr WebhookRequest`: every field at its zero value. */
  const ZeroWebhookRequest: WebhookRequest :=
    WebhookRequest(
      "",
      IntentInfo("", "", Float64(0)),
      PageInfo("", "", FormInfo([])),
      SessionInfo("", map[]),
      FulfillmentInfo(""),
      [],
      map[],
      "",
      "")

  /** The part of an `*http.Request` the package reads. */
  datatype HttpRequest = HttpRequest(body: Bytes)

  /** Free `FromReader`: decodes `r` into a zero-valued request. A clean
      decode and an `io.EOF` both yield the request the decoder left; any
      other error yields no request and that same error. */
  function FromReader(r: Bytes, decode: Decoder<WebhookRequest>): (res: Result<WebhookRequest, Error>)
    ensures res.Success? <==> decode(ZeroWebhookRequest, r).err in {None, Some(EOF)}
    ensures res.Success? ==> res.value == decode(ZeroWebhookRequest, r).target
    ensures res.Failure? ==> res.error != EOF && decode(ZeroWebhookRequest, r).err == Some(res.error)
  {
    var step := decode(ZeroWebhookRequest, r);
    if step.err == None || step.err == Some(EOF) then Success(step.target)
    else Failure(step.err.value)
  }

  /** Free `FromRequest`: the same policy applied to the request body. */
  function FromRequest(req: HttpRequest, decode: Decoder<WebhookRequest>): (res: Result<WebhookRequest, Error>)
    ensures res.Success? <==> decode(ZeroWebhookRequest, req.body).err in {None, Some(EOF)}
    ensures res.Success? ==> res.value == decode(ZeroWebhookRequest, req.body).target
    ensures res.Failure? ==> res.error != EOF && decode(ZeroWebhookRequest, req.body).err == Some(res.error)
  {
    FromReader(req.body, decode)
  }

  /** An empty body is no error: with a decoder that reports `io.EOF` before
      touching its target, the free functions return the zero-valued request. */
  lemma EmptyBodyGivesZeroRequest(r: Bytes, decode: Decoder<WebhookRequest>)
    requires KeepsTargetOnEOF(decode)
    requires decode(ZeroWebhookRequest, r).err == Some(EOF)
    ensures FromReader(r, decode) == Success(ZeroWebhookRequest)
    ensures FromRequest(HttpRequest(r), decode) == Success(ZeroWebhookRequest)
  {
  }

  /** A `*WebhookRequest` whose receiver methods decode into it in place. */
  class WebhookRequestRef {
    var value: WebhookRequest

    constructor (value: WebhookRequest)
      ensures this.value == value
    {
      this.value := value;
    }

    /** Receiver `FromReader`: decodes into the current request and returns the
        decoder's error unchanged, `io.EOF` included. */
    method FromReader(r: Bytes, decode: Decoder<WebhookRequest>) returns (err: Option<Error>)
      modifies this
      ensures value == decode(old(value), r).target
      ensures err == decode(old(value), r).err
    {
      var step := decode(value, r);
      value := step.target;
      if step.err != None {
        return step.err;
      }
      return None;
    }

    /** Receiver `FromRequest`: the same on the request body. */
    method FromRequest(req: HttpRequest, decode: Decoder<WebhookRequest>) returns (err: Option<Error>)
      modifies this
      ensures value == decode(old(value), req.body).target
      ensures err == decode(old(value), req.body).err
    {
      var step := decode(value, req.body);
      value := step.target;
      if step.err != None {
        return step.err;
      }
      return None;
    }
  }

  /** Encodes each element in order, stopping at the first failure. The
      specification of `UnmarshalJSONToReaders`' loop. */
  function EncodeAll<T>(xs: seq<T>, encode: Encoder<T>): Result<seq<Bytes>, Error>
    decreases |xs|
  {
    if xs == [] then Success([])
    else
      match EncodeAll(xs[..|xs| - 1], encode)
      case Failure(e) => Failure(e)
      case Success(bs) =>
        match encode(xs[|xs| - 1])
        case Failure(e) => Failure(e)
        case Success(b) => Success(bs + [b])
  }

  /** Encoding succeeds exactly when every element encodes, and then gives one
      buffer per element, in order. */
  lemma {:induction false} EncodeAllSuccess<T>(xs: seq<T>, encode: Encoder<T>)
    ensures EncodeAll(xs, encode).Success? <==> forall i :: 0 <= i < |xs| ==> encode(xs[i]).Success?
    ensures EncodeAll(xs, encode).Success? ==>
              |EncodeAll(xs, encode).value| == |xs| &&
              forall i :: 0 <= i < |xs| ==> EncodeAll(xs, encode).value[i] == encode(xs[i]).value
    decreases |xs|
  {
    if xs != [] {
      var init := xs[..|xs| - 1];
      EncodeAllSuccess(init, encode);
      assert forall i :: 0 <= i < |init| ==> init[i] == xs[i];
    }
  }

  /** The error reported is that of the first element that fails to encode. */
  lemma {:induction false} EncodeAllFirstFailure<T>(xs: seq<T>, encode: Encoder<T>, k: nat)
    requires k < |xs| && encode(xs[k]).Failure?
    requires forall i :: 0 <= i < k ==> encode(xs[i]).Success?
    ensures EncodeAll(xs, encode) == Failure(encode(xs[k]).error)
    decreases |xs|
  {
    var init := xs[..|xs| - 1];
    if k < |xs| - 1 {
      assert init[k] == xs[k];
      assert forall i :: 0 <= i < k ==> init[i] == xs[i];
      EncodeAllFirstFailure(init, encode, k);
    } else {
      assert forall i :: 0 <= i < |init| ==> init[i] == xs[i];
      EncodeAllSuccess(init, encode);
    }
  }

  /** A failure in a prefix is the failure of the whole sequence. */
  lemma {:induction false} EncodeAllPrefixFailure<T>(xs: seq<T>, n: nat, encode: Encoder<T>)
    requires n <= |xs| && EncodeAll(xs[..n], encode).Failure?
    ensures EncodeAll(xs, encode) == EncodeAll(xs[..n], encode)
    decreases |xs| - n
  {
    if n < |xs| {
      assert xs[..n + 1][..n] == xs[..n];
      EncodeAllPrefixFailure(xs, n + 1, encode);
    } else {
      assert xs[..n] == xs;
    }
  }

  /** `WebhookRequests`: a slice of request pointers (nil is `None`). */
  class WebhookRequests {
    var items: seq<Option<WebhookRequest>>

    constructor (items: seq<Option<WebhookRequest>>)
      ensures this.items == items
    {
      this.items := items;
    }

    /** Decodes a JSON array into the slice and returns the decoder's error. */
    method UnmarshalJSONReader(r: Bytes, decode: Decoder<seq<Option<WebhookRequest>>>) returns (err: Option<Error>)
      modifies this
      ensures items == decode(old(items), r).target
      ensures err == decode(old(items), r).err
    {
      var step := decode(items, r);
      items := step.target;
      err := step.err;
    }

    /** Decodes the batch (ignoring the decode error), then encodes every
        element into its own buffer, in order, returning the first encode
        error instead if there is one. */
    method UnmarshalJSONToReaders(
      r: Bytes,
      decode: Decoder<seq<Option<WebhookRequest>>>,
      encode: Encoder<Option<WebhookRequest>>)
      returns (res: Result<seq<Bytes>, Error>)
      modifies this
      ensures items == decode(old(items), r).target
      ensures res == EncodeAll(items, encode)
    {
      var _ := UnmarshalJSONReader(r, decode);
      var readers: seq<Bytes> := [];
      var i := 0;
      while i < |items|
        invariant 0 <= i <= |items|
        invariant EncodeAll(items[..i], encode) == Success(readers)
      {
        var b := encode(items[i]);
        assert items[..i + 1][..i] == items[..i];
        if b.Failure? {
          EncodeAllPrefixFailure(items, i + 1, encode);
          return Failure(b.error);
        }
        readers := readers + [b.value];
        i := i + 1;
      }
      assert items[..i] == items;
      return Success(readers);
    }
  }
}
