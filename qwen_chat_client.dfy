/** The Qwen (DashScope) chat completion client: request building, response
    translation and the server-sent-event line filter of the streaming call.
    HTTP is not modelled; JSON parsing is a function the caller supplies. */
module QwenChatCompletion {
  import opened Wrappers
  import opened Strings
  import opened ChatContracts

  const DefaultEndpoint := "https://dashscope.aliyuncs.com/api/v1/services/aigc/text-generation/generation"
  const AssistantRole := "assistant"
  const DefaultFinishReason := "stop"
  const DataPrefix := "data: "
  const DoneMarker := "[DONE]"

  datatype QwenMessage = QwenMessage(role: string, content: string)

  /** Request parameters; temperature and top-p are not part of this model. */
  datatype QwenParameters = QwenParameters(
    maxTokens: Option<int>,
    stop: Option<seq<string>>,
    incrementalOutput: bool)

  datatype QwenRequest = QwenRequest(model: string, messages: seq<QwenMessage>, parameters: QwenParameters)

  datatype QwenOutput = QwenOutput(text: Option<string>, finishReason: Option<string>)

  datatype QwenUsage = QwenUsage(inputTokens: int, outputTokens: int, totalTokens: int)

  datatype QwenResponse = QwenResponse(
    requestId: Option<string>,
    output: Option<QwenOutput>,
    usage: Option<QwenUsage>)

  datatype QwenStreamResponse = QwenStreamResponse(requestId: Option<string>, output: Option<QwenOutput>)

  /** What deserializing a payload gives: a `JsonException`, or a value
      (None when the payload is the JSON literal null). */
  datatype JsonParse<T> = Malformed | Parsed(value: Option<T>)

  /** Why a non-streaming completion fails once the body has arrived. */
  datatype CompletionError = JsonError | NullResponse

  /** The endpoint the client posts to: the model's "endpoint" metadata entry
      when there is one, else the DashScope default. */
  function EndpointFor(modelInfo: ModelInfo): (endpoint: string)
    ensures "endpoint" in modelInfo.metadata ==> endpoint == modelInfo.metadata["endpoint"]
    ensures "endpoint" !in modelInfo.metadata ==> endpoint == DefaultEndpoint
  {
    if "endpoint" in modelInfo.metadata then modelInfo.metadata["endpoint"] else DefaultEndpoint
  }

  function ToResponseId(requestId: Option<string>): ResponseId {
    match requestId
    case Some(id) => RequestId(id)
    case None => GeneratedId
  }

  /** `ConvertToQwenMessage`: keeps the role and the content, drops the rest. */
  function ConvertToQwenMessage(message: ChatMessage): (r: QwenMessage)
    ensures r.role == message.role && r.content == message.content
  {
    QwenMessage(message.role, message.content)
  }

  predicate IsDataLine(line: string) {
    StartsWith(line, DataPrefix)
  }

  /** The part of a data line after the prefix. */
  function Payload(line: string): string
    requires IsDataLine(line)
  {
    line[|DataPrefix|..]
  }

  /** A data line whose payload is the end-of-stream marker. */
  predicate IsDoneLine(line: string) {
    IsDataLine(line) && Payload(line) == DoneMarker
  }

  /** The parsed chunk a line delivers: only a data line whose payload parses
      to a non-null chunk whose output has text delivers one. */
  function LineOutput(line: string, parse: string -> JsonParse<QwenStreamResponse>)
    : (r: Option<QwenStreamResponse>)
    ensures r.Some? <==> IsDataLine(line) && parse(Payload(line)).Parsed? && parse(Payload(line)).value.Some?
                         && parse(Payload(line)).value.value.output.Some?
                         && parse(Payload(line)).value.value.output.value.text.Some?
    ensures r.Some? ==> parse(Payload(line)) == Parsed(r)
  {
    if !IsDataLine(line) then None
    else match parse(Payload(line))
      case Malformed => None
      case Parsed(None) => None
      case Parsed(Some(chunk)) =>
        if chunk.output.Some? && chunk.output.value.text.Some? then Some(chunk) else None
  }

  /** The text a line carries, if any. */
  function LineText(line: string, parse: string -> JsonParse<QwenStreamResponse>): Option<string> {
    match LineOutput(line, parse)
    case None => None
    case Some(chunk) => chunk.output.value.text
  }

  /** The client built for one model. */
  datatype QwenChatCompletionClient = QwenChatCompletionClient(
    modelInfo: ModelInfo,
    configuration: ModelConfiguration,
    endpoint: string)
  {
    function ModelName(): string {
      modelInfo.name
    }

    /** The chunk yielded for a parsed line whose output has text. */
    function StreamChunk(chunk: QwenStreamResponse): (r: ChatCompletionStreamResponse)
      requires chunk.output.Some? && chunk.output.value.text.Some?
      ensures r.id == ToResponseId(chunk.requestId) && r.model == ModelName()
      ensures |r.choices| == 1 && r.choices[0].index == 0
      ensures r.choices[0].delta == Some(ChatMessageDelta(Some(AssistantRole), chunk.output.value.text))
      ensures r.choices[0].finishReason == chunk.output.value.finishReason
    {
      ChatCompletionStreamResponse(
        ToResponseId(chunk.requestId), ModelName(),
        [ChatStreamChoice(0, Some(ChatMessageDelta(Some(AssistantRole), chunk.output.value.text)),
                          chunk.output.value.finishReason)])
    }

    /** What one line contributes to the stream, if anything. */
    function LineChunk(line: string, parse: string -> JsonParse<QwenStreamResponse>)
      : (r: Option<ChatCompletionStreamResponse>)
      ensures r.Some? <==> LineText(line, parse).Some?
      ensures r.Some? ==> r.value.model == ModelName() && |r.value.choices| == 1
                          && r.value.choices[0].delta == Some(ChatMessageDelta(Some(AssistantRole), LineText(line, parse)))
    {
      match LineOutput(line, parse)
      case None => None
      case Some(chunk) => Some(StreamChunk(chunk))
    }

    /** The chunks a sequence of response lines yields: one per line with
        text, in line order, up to the first end-of-stream marker. */
    function StreamOf(lines: seq<string>, parse: string -> JsonParse<QwenStreamResponse>)
      : (chunks: seq<ChatCompletionStreamResponse>)
      ensures |chunks| <= |lines|
      ensures forall k :: 0 <= k < |chunks| ==>
        chunks[k].model == ModelName() && |chunks[k].choices| == 1 && chunks[k].choices[0].index == 0
    {
      if |lines| == 0 || IsDoneLine(lines[0]) then []
      else match LineChunk(lines[0], parse)
        case Some(c) => [c] + StreamOf(lines[1..], parse)
        case None => StreamOf(lines[1..], parse)
    }

    /** `CreateQwenRequest`: messages copied one by one, then the options
        that are set copied onto the parameters. */
    method CreateQwenRequest(messages: seq<ChatMessage>, options: Option<ChatCompletionOptions>, stream: bool)
      returns (request: QwenRequest)
      ensures request.model == ModelName()
      ensures |request.messages| == |messages|
      ensures forall i :: 0 <= i < |messages| ==>
        request.messages[i].role == messages[i].role && request.messages[i].content == messages[i].content
      ensures request.parameters.incrementalOutput == stream
      ensures request.parameters.maxTokens == if options.Some? then options.value.maxTokens else None
      ensures request.parameters.stop ==
        if options.Some? && options.value.stop.Some? && |options.value.stop.value| > 0
        then options.value.stop else None
    {
      var qwenMessages := seq(|messages|, i requires 0 <= i < |messages| => ConvertToQwenMessage(messages[i]));
      request := QwenRequest(ModelName(), qwenMessages, QwenParameters(None, None, stream));
      if options.Some? {
        if options.value.maxTokens.Some? {
          request := request.(parameters := request.parameters.(maxTokens := options.value.maxTokens));
        }
        if options.value.stop.Some? && |options.value.stop.value| > 0 {
          request := request.(parameters := request.parameters.(stop := Some(options.value.stop.value)));
        }
      }
    }

    /** `ConvertToStandardResponse`: exactly one assistant choice, with every
        missing field defaulted. */
    function ConvertToStandardResponse(response: QwenResponse): (r: ChatCompletionResponse)
      ensures r.model == ModelName()
      ensures r.id == if response.requestId.Some? then RequestId(response.requestId.value) else GeneratedId
      ensures |r.choices| == 1 && r.choices[0].index == 0 && r.choices[0].message.role == AssistantRole
      ensures r.choices[0].message.content ==
        if response.output.Some? && response.output.value.text.Some? then response.output.value.text.value else ""
      ensures r.choices[0].finishReason ==
        if response.output.Some? && response.output.value.finishReason.Some?
        then response.output.value.finishReason else Some(DefaultFinishReason)
      ensures r.usage.Some?
      ensures response.usage.None? ==> r.usage == Some(UsageInfo(0, 0, 0))
      ensures response.usage.Some? ==> r.usage == Some(UsageInfo(response.usage.value.inputTokens,
        response.usage.value.outputTokens, response.usage.value.totalTokens))
    {
      var text := if response.output.Some? then response.output.value.text else None;
      var finish := if response.output.Some? then response.output.value.finishReason else None;
      var usage := match response.usage
        case Some(u) => UsageInfo(u.inputTokens, u.outputTokens, u.totalTokens)
        case None => UsageInfo(0, 0, 0);
      ChatCompletionResponse(
        ToResponseId(response.requestId), ModelName(),
        [ChatChoice(0, ChatMessage(AssistantRole, text.GetOr(""), None, None), Some(finish.GetOr(DefaultFinishReason)))],
        Some(usage))
    }

    /** The non-streaming call once the response body has arrived: a body
        that does not parse, or parses to null, makes the call throw. */
    function CompletionFromBody(responseJson: string, parse: string -> JsonParse<QwenResponse>)
      : (r: Result<ChatCompletionResponse, CompletionError>)
      ensures parse(responseJson).Malformed? <==> r == Err(JsonError)
      ensures parse(responseJson) == Parsed(None) <==> r == Err(NullResponse)
      ensures parse(responseJson).Parsed? && parse(responseJson).value.Some? ==>
        r == Ok(ConvertToStandardResponse(parse(responseJson).value.value))
    {
      match parse(responseJson)
      case Malformed => Err(JsonError)
      case Parsed(None) => Err(NullResponse)
      case Parsed(Some(response)) => Ok(ConvertToStandardResponse(response))
    }

    /** `CreateChatCompletionStreamAsync` over the lines of the response
        stream: returns the request it posts and the chunks it yields. */
    method CreateChatCompletionStream(
      messages: seq<ChatMessage>, options: Option<ChatCompletionOptions>,
      responseLines: seq<string>, parse: string -> JsonParse<QwenStreamResponse>)
      returns (request: QwenRequest, chunks: seq<ChatCompletionStreamResponse>)
      ensures request.parameters.incrementalOutput && |request.messages| == |messages|
      ensures chunks == StreamOf(responseLines, parse)
    {
      request := CreateQwenRequest(messages, options, true);
      chunks := [];
      var i := 0;
      while i < |responseLines|
        invariant 0 <= i <= |responseLines|
        invariant chunks + StreamOf(responseLines[i..], parse) == StreamOf(responseLines, parse)
      {
        var line := responseLines[i];
        StreamStep(this, responseLines, i, parse);
        if StartsWith(line, DataPrefix) {
          var data := line[|DataPrefix|..];
          if data == DoneMarker {
            return;
          }
          var parsed := parse(data);
          if parsed.Malformed? {
            assert LineChunk(line, parse).None?;
            i := i + 1;
            continue;
          }
          var chunk := parsed.value;
          if chunk.Some? && chunk.value.output.Some? && chunk.value.output.value.text.Some? {
            assert LineChunk(line, parse) == Some(StreamChunk(chunk.value));
            chunks := chunks + [StreamChunk(chunk.value)];
          } else {
            assert LineChunk(line, parse).None?;
          }
        } else {
          assert LineChunk(line, parse).None?;
        }
        i := i + 1;
      }
    }
  }

  /** One step of reading: the end marker stops the stream, any other line
      contributes its chunk, if it has one, before the rest. */
  lemma StreamStep(c: QwenChatCompletionClient, lines: seq<string>, i: int,
                   parse: string -> JsonParse<QwenStreamResponse>)
    requires 0 <= i < |lines|
    ensures IsDoneLine(lines[i]) ==> c.StreamOf(lines[i..], parse) == []
    ensures !IsDoneLine(lines[i]) && c.LineChunk(lines[i], parse).None? ==>
      c.StreamOf(lines[i..], parse) == c.StreamOf(lines[i + 1..], parse)
    ensures !IsDoneLine(lines[i]) && c.LineChunk(lines[i], parse).Some? ==>
      c.StreamOf(lines[i..], parse) == [c.LineChunk(lines[i], parse).value] + c.StreamOf(lines[i + 1..], parse)
  {
    assert lines[i..][0] == lines[i];
    assert lines[i..][1..] == lines[i + 1..];
  }

  /** A line without the data prefix yields nothing and does not stop the stream. */
  lemma NonDataLineIgnored(c: QwenChatCompletionClient, line: string, rest: seq<string>,
                           parse: string -> JsonParse<QwenStreamResponse>)
    requires !IsDataLine(line)
    ensures c.StreamOf([line] + rest, parse) == c.StreamOf(rest, parse)
  {
    assert ([line] + rest)[1..] == rest;
  }

  /** A data line whose payload does not parse is skipped and the stream goes on. */
  lemma MalformedLineSkipped(c: QwenChatCompletionClient, line: string, rest: seq<string>,
                             parse: string -> JsonParse<QwenStreamResponse>)
    requires IsDataLine(line) && !IsDoneLine(line) && parse(Payload(line)).Malformed?
    ensures c.StreamOf([line] + rest, parse) == c.StreamOf(rest, parse)
  {
    assert ([line] + rest)[1..] == rest;
  }

  /** The stream is read in order: the chunks of two stretches of lines are
      the chunks of the first followed by those of the second, as long as the
      first holds no end-of-stream marker. */
  lemma {:induction false} StreamAppend(c: QwenChatCompletionClient, a: seq<string>, b: seq<string>,
                                        parse: string -> JsonParse<QwenStreamResponse>)
    requires forall j :: 0 <= j < |a| ==> !IsDoneLine(a[j])
    ensures c.StreamOf(a + b, parse) == c.StreamOf(a, parse) + c.StreamOf(b, parse)
  {
    if |a| == 0 {
      assert a + b == b;
    } else {
      assert (a + b)[0] == a[0];
      assert (a + b)[1..] == a[1..] + b;
      StreamAppend(c, a[1..], b, parse);
    }
  }

  /** Nothing after the end-of-stream marker yields a chunk. */
  lemma {:induction false} DoneEndsStream(c: QwenChatCompletionClient, before: seq<string>, done: string,
                                          after: seq<string>, parse: string -> JsonParse<QwenStreamResponse>)
    requires forall j :: 0 <= j < |before| ==> !IsDoneLine(before[j])
    requires IsDoneLine(done)
    ensures c.StreamOf(before + [done] + after, parse) == c.StreamOf(before, parse)
  {
    assert before + [done] + after == before + ([done] + after);
    StreamAppend(c, before, [done] + after, parse);
  }

  /** Line `j` carries `text` and no line up to it is the end marker. */
  predicate TextReadAt(lines: seq<string>, parse: string -> JsonParse<QwenStreamResponse>, j: int,
                       text: Option<string>)
  {
    0 <= j < |lines| && (forall m :: 0 <= m <= j ==> !IsDoneLine(lines[m]))
    && LineText(lines[j], parse).Some? && text == LineText(lines[j], parse)
  }

  /** Some line of `lines` before any end marker carries `text`. */
  ghost predicate TextRead(lines: seq<string>, parse: string -> JsonParse<QwenStreamResponse>, text: Option<string>) {
    exists j :: 0 <= j < |lines| && TextReadAt(lines, parse, j, text)
  }

  /** A text read from the tail of the lines is read from the whole, when the
      first line is not the end marker. */
  lemma TextReadShift(lines: seq<string>, parse: string -> JsonParse<QwenStreamResponse>, text: Option<string>)
    requires |lines| > 0 && !IsDoneLine(lines[0])
    requires TextRead(lines[1..], parse, text)
    ensures TextRead(lines, parse, text)
  {
    var j :| 0 <= j < |lines[1..]| && TextReadAt(lines[1..], parse, j, text);
    forall m | 0 <= m <= j + 1 ensures !IsDoneLine(lines[m]) {
      if m > 0 { assert lines[m] == lines[1..][m - 1]; }
    }
    assert lines[j + 1] == lines[1..][j];
    assert TextReadAt(lines, parse, j + 1, text);
  }

  /** Every chunk is a single assistant choice at index 0 for the client's
      model, and its text is the text of a line read before any end marker. */
  lemma {:induction false} StreamChunkShape(c: QwenChatCompletionClient, lines: seq<string>,
                                            parse: string -> JsonParse<QwenStreamResponse>, k: nat)
    requires k < |c.StreamOf(lines, parse)|
    ensures var chunk := c.StreamOf(lines, parse)[k];
      chunk.model == c.ModelName() && |chunk.choices| == 1 && chunk.choices[0].index == 0
      && chunk.choices[0].delta.Some? && chunk.choices[0].delta.value.role == Some(AssistantRole)
      && TextRead(lines, parse, chunk.choices[0].delta.value.content)
  {
    var rest := c.StreamOf(lines[1..], parse);
    var chunk := c.StreamOf(lines, parse)[k];
    match c.LineChunk(lines[0], parse)
    case Some(first) =>
      if k == 0 {
        assert chunk == first;
        assert TextReadAt(lines, parse, 0, chunk.choices[0].delta.value.content);
      } else {
        assert chunk == rest[k - 1];
        StreamChunkShape(c, lines[1..], parse, k - 1);
        TextReadShift(lines, parse, chunk.choices[0].delta.value.content);
      }
    case None =>
      assert chunk == rest[k];
      StreamChunkShape(c, lines[1..], parse, k);
      TextReadShift(lines, parse, chunk.choices[0].delta.value.content);
  }

  /** The two calls agree on the text of an output that has one, but only the
      non-streaming call defaults a missing finish reason to "stop". */
  lemma CompletionAndStreamAgree(c: QwenChatCompletionClient, requestId: Option<string>, output: QwenOutput,
                                 usage: Option<QwenUsage>)
    requires output.text.Some?
    ensures var full := c.ConvertToStandardResponse(QwenResponse(requestId, Some(output), usage));
      var chunk := c.StreamChunk(QwenStreamResponse(requestId, Some(output)));
      (requestId.Some? ==> full.id == chunk.id == RequestId(requestId.value))
      && (requestId.None? ==> full.id.GeneratedId? && chunk.id.GeneratedId?)
      && full.model == chunk.model
      && chunk.choices[0].delta == Some(ChatMessageDelta(Some(full.choices[0].message.role),
                                                          Some(full.choices[0].message.content)))
      && chunk.choices[0].finishReason == output.finishReason
      && full.choices[0].finishReason == Some(output.finishReason.GetOr(DefaultFinishReason))
  {
  }

  /** The client constructor: the endpoint comes from the model's metadata;
      the configuration (its base URL included) plays no part in it. */
  function NewClient(modelInfo: ModelInfo, configuration: ModelConfiguration): (c: QwenChatCompletionClient)
    ensures c.modelInfo == modelInfo && c.configuration == configuration
    ensures "endpoint" in modelInfo.metadata ==> c.endpoint == modelInfo.metadata["endpoint"]
    ensures "endpoint" !in modelInfo.metadata ==> c.endpoint == DefaultEndpoint
  {
    QwenChatCompletionClient(modelInfo, configuration, EndpointFor(modelInfo))
  }
}
